/**
 Exit of clients and servers (server/s_exit.c). A server that leaves takes every server and
 user behind it along; the neighbours are told, and the statistics follow.
 */
module Netsplit {
  import opened LinkedLists

  type Id = nat

  datatype Status = Me | Server | Client | Service | Unregistered

  /** The part of a client record that an exit does not change. */
  datatype Info = Info(
    status: Status, local: bool, from: Id, servptr: Id,
    oper: bool, invisible: bool, uline: bool, killed: bool,
    httpListener: bool, httpClient: bool)

  /** The `serv` block of a server; `refused` is how often usercnt was lowered for a user that was never on it. */
  datatype Serv = Serv(users: seq<Id>, servers: seq<Id>, usercnt: int, servercnt: int, refused: nat)

  const NOBODY := Serv([], [], 0, 0, 0)

  /**
   The fields of the global `Count`, but for `unknown`; and `Repeats`, how often Count.invisi was
   raised for a client that was invisible already.
   */
  datatype Kind = Total | Oper | Invisi | Servers | Services | Local | MyServer | MyUlined | MyService | Repeats

  type Clients = map<Id, Info>

  predicate Matches(k: Kind, i: Info) {
    match k
    case Total => i.status.Client?
    case Oper => i.oper
    case Invisi => i.invisible
    case Servers => i.status.Server?
    case Services => i.status.Service?
    case Local => i.local && i.status.Client?
    case MyServer => i.local && i.status.Server?
    case MyUlined => i.local && i.status.Server? && i.uline
    case MyService => i.local && i.status.Service?
    case Repeats => false
  }

  /** exit_client keeps these counts, exit_one_client the others. */
  predicate IsLocalKind(k: Kind) {
    k.Local? || k.MyServer? || k.MyUlined? || k.MyService?
  }

  predicate InTree(i: Info) {
    i.status.Server? || i.status.Client?
  }

  predicate HasServ(i: Info) {
    i.status.Server? || i.status.Me?
  }

  // ------------------------------------------------------------------------------------
  // The tree of servers and users
  // ------------------------------------------------------------------------------------

  /** Every server and user hangs, one level deeper, on a server or on us. */
  ghost predicate TreeInv(me: Id, c: Clients, depth: map<Id, nat>, bound: nat, present: set<Id>) {
    && me in present && present <= c.Keys && present <= depth.Keys
    && (forall x :: x in present ==> (c[x].status.Me? <==> x == me))
    && (forall x :: x in present ==> depth[x] <= bound)
    && (forall x :: x in present && InTree(c[x]) ==>
          && c[x].servptr in present && HasServ(c[c[x].servptr])
          && depth[x] == depth[c[x].servptr] + 1)
  }

  /** `x` is `s` or is somewhere behind it. */
  ghost predicate Under(c: Clients, depth: map<Id, nat>, x: Id, s: Id)
    decreases if x in depth then depth[x] else 0
  {
    || x == s
    || (x in c && x in depth && InTree(c[x]) && c[x].servptr in depth &&
        depth[c[x].servptr] < depth[x] && Under(c, depth, c[x].servptr, s))
  }

  ghost function Subtree(c: Clients, depth: map<Id, nat>, present: set<Id>, s: Id): set<Id> {
    set x | x in present && Under(c, depth, x, s)
  }

  /** What a present client hangs on is present. */
  lemma {:induction false} UpIsPresent(me: Id, c: Clients, depth: map<Id, nat>, bound: nat, present: set<Id>, x: Id, s: Id)
    requires TreeInv(me, c, depth, bound, present) && x in present && Under(c, depth, x, s)
    ensures s in present && depth[s] <= depth[x]
    ensures x != s ==> HasServ(c[s])
    decreases depth[x]
  {
    if x != s {
      UpIsPresent(me, c, depth, bound, present, c[x].servptr, s);
    }
  }

  lemma {:induction false} UnderTransitive(c: Clients, depth: map<Id, nat>, x: Id, y: Id, z: Id)
    requires Under(c, depth, x, y) && Under(c, depth, y, z)
    ensures Under(c, depth, x, z)
    decreases if x in depth then depth[x] else 0
  {
    if x != y {
      UnderTransitive(c, depth, c[x].servptr, y, z);
    }
  }

  /** The lists of a server hold exactly the present users and servers that hang on it. */
  ghost predicate ServExact(c: Clients, v: Serv, present: set<Id>, s: Id)
    requires present <= c.Keys
  {
    && (forall x :: x in v.users <==> x in present && c[x].status.Client? && c[x].servptr == s)
    && (forall x :: x in v.servers <==> x in present && c[x].status.Server? && c[x].servptr == s)
    && Distinct(v.users) && v.usercnt == |v.users| - v.refused
    && Distinct(v.servers) && v.servercnt == |v.servers|
  }

  ghost predicate ListInv(c: Clients, serv: map<Id, Serv>, present: set<Id>)
    requires present <= c.Keys
  {
    && serv.Keys <= present
    && forall s :: s in present ==>
      (s in serv <==> HasServ(c[s])) && (s in serv ==> ServExact(c, serv[s], present, s))
  }

  /** A server list entry for `x` is dropped. */
  function Dropped(v: Serv, i: Info, x: Id): Serv {
    if i.status.Server? then v.(servers := Without(v.servers, x), servercnt := v.servercnt - 1)
    else v.(users := Without(v.users, x), usercnt := v.usercnt - 1)
  }

  /** A server with empty lists has nothing behind it. */
  lemma {:induction false} NothingBehind(me: Id, c: Clients, depth: map<Id, nat>, bound: nat, present: set<Id>, serv: map<Id, Serv>, s: Id, x: Id)
    requires TreeInv(me, c, depth, bound, present) && ListInv(c, serv, present)
    requires s in present && x in present && x != s
    requires s in serv ==> serv[s].users == [] && serv[s].servers == []
    ensures !Under(c, depth, x, s)
    decreases depth[x]
  {
    if InTree(c[x]) && c[x].servptr != s {
      NothingBehind(me, c, depth, bound, present, serv, s, c[x].servptr);
    }
  }

  // ------------------------------------------------------------------------------------
  // The counters
  // ------------------------------------------------------------------------------------

  ghost function Those(c: Clients, present: set<Id>, k: Kind): set<Id>
    requires present <= c.Keys
  {
    set x | x in present && Matches(k, c[x])
  }

  ghost predicate CountInv(c: Clients, count: map<Kind, int>, present: set<Id>, local: bool)
    requires present <= c.Keys
  {
    && (forall k: Kind :: k in count) && count[Repeats] >= 0
    && (forall k: Kind :: k != Repeats && IsLocalKind(k) == local ==> count[k] == |Those(c, present, k)| + Excess(count, k))
  }

  /** By how much a counter is too high. */
  function Excess(count: map<Kind, int>, k: Kind): int {
    if k.Invisi? && Repeats in count then count[Repeats] else 0
  }

  function Less(count: map<Kind, int>, i: Info, local: bool): map<Kind, int> {
    map k | k in count :: count[k] - if IsLocalKind(k) == local && Matches(k, i) then 1 else 0
  }

  lemma ThoseLess(c: Clients, present: set<Id>, x: Id, k: Kind)
    requires x in present && present <= c.Keys
    ensures |Those(c, present - {x}, k)| == |Those(c, present, k)| - if Matches(k, c[x]) then 1 else 0
  {
    hide Matches;
    var those, left := Those(c, present, k), Those(c, present - {x}, k);
    assert x in those <==> Matches(k, c[x]);
    assert left == those - {x};
  }

  lemma CountLess(c: Clients, count: map<Kind, int>, present: set<Id>, x: Id, local: bool)
    requires x in present && present <= c.Keys && CountInv(c, count, present, local)
    ensures CountInv(c, Less(count, c[x], local), present - {x}, local)
  {
    hide Matches, Those;
    LessKeeps(count, c[x], local);
    forall k: Kind {
      ThoseLess(c, present, x, k);
    }
  }

  lemma ServLess(c: Clients, v: Serv, present: set<Id>, x: Id)
    requires x in present && present <= c.Keys && InTree(c[x]) && ServExact(c, v, present, c[x].servptr)
    ensures ServExact(c, Dropped(v, c[x], x), present - {x}, c[x].servptr)
  {
    if c[x].status.Server? {
      WithoutMembers(v.servers, x);
      WithoutDistinct(v.servers, x);
    } else {
      WithoutMembers(v.users, x);
      WithoutDistinct(v.users, x);
    }
  }

  /** The lists of other servers. */
  lemma ServSame(c: Clients, v: Serv, present: set<Id>, x: Id, s: Id)
    requires x in present && present <= c.Keys && ServExact(c, v, present, s) && !(InTree(c[x]) && c[x].servptr == s)
    ensures ServExact(c, v, present - {x}, s)
  {
  }

  /** Taking a client without dependants off its server keeps the lists exact. */
  lemma ListLess(c: Clients, serv: map<Id, Serv>, present: set<Id>, x: Id, serv': map<Id, Serv>)
    requires x in present && present <= c.Keys && ListInv(c, serv, present)
    requires InTree(c[x]) ==> c[x].servptr in present && c[x].servptr != x && HasServ(c[c[x].servptr])
    requires serv'.Keys == serv.Keys - {x}
    requires forall s :: s in present && s != x && s in serv ==>
               serv'[s] == if InTree(c[x]) && s == c[x].servptr then Dropped(serv[s], c[x], x) else serv[s]
    ensures ListInv(c, serv', present - {x})
  {
    hide Dropped, ServExact;
    forall s | s in present && s != x && s in serv ensures ServExact(c, serv'[s], present - {x}, s) {
      if InTree(c[x]) && s == c[x].servptr {
        ServLess(c, serv[s], present, x);
      } else {
        ServSame(c, serv[s], present, x, s);
      }
    }
  }

  lemma TreeLess(me: Id, c: Clients, depth: map<Id, nat>, bound: nat, present: set<Id>, x: Id)
    requires TreeInv(me, c, depth, bound, present) && x in present && x != me
    requires forall y :: y in present && y != x ==> !Under(c, depth, y, x)
    ensures TreeInv(me, c, depth, bound, present - {x})
  {
    forall y | y in present && y != x && InTree(c[y]) ensures c[y].servptr != x {
      if c[y].servptr == x {
        assert Under(c, depth, y, x);
      }
    }
  }

  // ------------------------------------------------------------------------------------
  // Messages to the directly linked servers
  // ------------------------------------------------------------------------------------

  /** A SQUIT names the source of the split only on the link that the lost server was behind. */
  datatype Msg = Squit(to: Id, bySource: bool, about: Id) | Quit(to: Id, about: Id)

  function SquitTo(links: seq<Id>, me: Id, source: Id, from: Id, x: Id): seq<Msg>
    decreases |links|
  {
    if links == [] then [] else
    var l := links[0];
    (if l == me || l == x || l == source then [] else [Squit(l, from == l, x)])
    + SquitTo(links[1..], me, source, from, x)
  }

  lemma SquitToStep(links: seq<Id>, me: Id, source: Id, from: Id, x: Id, i: nat)
    requires i < |links|
    ensures var l := links[i];
            SquitTo(links[i..], me, source, from, x) ==
            (if l == me || l == x || l == source then [] else [Squit(l, from == l, x)]) + SquitTo(links[i + 1..], me, source, from, x)
  {
    assert links[i..][1..] == links[i + 1..];
  }

  lemma QuitToStep(links: seq<Id>, but: Id, x: Id, i: nat)
    requires i < |links|
    ensures QuitTo(links[i..], but, x) == (if links[i] == but then [] else [Quit(links[i], x)]) + QuitTo(links[i + 1..], but, x)
  {
    assert links[i..][1..] == links[i + 1..];
  }

  lemma ToNobody(me: Id, source: Id, from: Id, x: Id)
    ensures SquitTo([], me, source, from, x) == [] && QuitTo([], from, x) == []
  {
  }

  function QuitTo(links: seq<Id>, but: Id, x: Id): seq<Msg>
    decreases |links|
  {
    if links == [] then [] else
    (if links[0] == but then [] else [Quit(links[0], x)]) + QuitTo(links[1..], but, x)
  }

  /** The SQUITs for a sequence of lost servers. */
  function Announce(links: seq<Id>, me: Id, source: Id, c: Clients, lost: seq<Id>): seq<Msg>
    decreases |lost|
  {
    if lost == [] then [] else
    var n := |lost| - 1;
    var from := if lost[n] in c then c[lost[n]].from else me;
    Announce(links, me, source, c, lost[..n]) + SquitTo(links, me, source, from, lost[n])
  }

  predicate IsServer(c: Clients, x: Id) {
    x in c && c[x].status.Server?
  }

  function OnlyServers(c: Clients, xs: seq<Id>): seq<Id>
    decreases |xs|
  {
    if xs == [] then [] else
    var n := |xs| - 1;
    OnlyServers(c, xs[..n]) + if IsServer(c, xs[n]) then [xs[n]] else []
  }

  lemma {:induction false} OnlyServersAppend(c: Clients, a: seq<Id>, b: seq<Id>)
    ensures OnlyServers(c, a + b) == OnlyServers(c, a) + OnlyServers(c, b)
    decreases |b|
  {
    if b == [] {
      assert a + b == a;
    } else {
      var n := |b| - 1;
      assert (a + b)[..|a| + n] == a + b[..n];
      OnlyServersAppend(c, a, b[..n]);
    }
  }

  lemma {:induction false} AnnounceAppend(links: seq<Id>, me: Id, source: Id, c: Clients, a: seq<Id>, b: seq<Id>)
    ensures Announce(links, me, source, c, a + b) ==
            Announce(links, me, source, c, a) + Announce(links, me, source, c, b)
    decreases |b|
  {
    hide SquitTo;
    if b == [] {
      assert a + b == a;
    } else {
      var n := |b| - 1;
      assert (a + b)[..|a| + n] == a + b[..n];
      AnnounceAppend(links, me, source, c, a, b[..n]);
    }
  }

  /** Nothing that comes later is behind something that comes earlier. */
  ghost predicate LeavesFirst(c: Clients, depth: map<Id, nat>, xs: seq<Id>) {
    forall i, j :: 0 <= i < j < |xs| ==> !Under(c, depth, xs[j], xs[i])
  }

  /** Clients that leave a tree do so before what they hang on: what is present hangs on nothing gone. */
  lemma LeavesFirstAppend(me: Id, c: Clients, depth: map<Id, nat>, bound: nat, present: set<Id>, a: seq<Id>, b: seq<Id>)
    requires TreeInv(me, c, depth, bound, present)
    requires LeavesFirst(c, depth, a) && LeavesFirst(c, depth, b)
    requires forall x :: x in a ==> x !in present
    requires forall x :: x in b ==> x in present
    ensures LeavesFirst(c, depth, a + b)
  {
    forall i, j | 0 <= i < j < |a + b| ensures !Under(c, depth, (a + b)[j], (a + b)[i]) {
      if i < |a| && |a| <= j {
        assert a[i] in a && b[j - |a|] in b;
        if Under(c, depth, b[j - |a|], a[i]) {
          UpIsPresent(me, c, depth, bound, present, b[j - |a|], a[i]);
        }
      }
    }
  }

  lemma WithoutSet(xs: seq<Id>, x: Id)
    ensures SetOf(Without(xs, x)) == SetOf(xs) - {x}
    ensures Distinct(xs) ==> Distinct(Without(xs, x))
  {
    WithoutMembers(xs, x);
    if Distinct(xs) {
      WithoutDistinct(xs, x);
    }
  }

  function Dec(count: map<Kind, int>, k: Kind, b: bool): map<Kind, int>
    requires k in count
  {
    if b then count[k := count[k] - 1] else count
  }

  /** The counters that exit_one_client lowers. */
  lemma ExitCounts(count: map<Kind, int>, i: Info)
    requires forall k: Kind :: k in count
    ensures var c1 := Dec(Dec(count, Total, i.status.Client?), Oper, i.oper);
            var c2 := Dec(Dec(c1, Invisi, i.invisible), Servers, i.status.Server?);
            Dec(c2, Services, i.status.Service?) == Less(count, i, false)
  {
  }

  lemma CountKinds(c: Clients, count: map<Kind, int>, present: set<Id>)
    requires present <= c.Keys && CountInv(c, count, present, false)
    ensures forall k: Kind :: k in count
  {
  }

  /** A client with nothing behind it can leave the tree. */
  lemma UnlinkTree(me: Id, c: Clients, depth: map<Id, nat>, bound: nat, present: set<Id>, serv: map<Id, Serv>, x: Id)
    requires TreeInv(me, c, depth, bound, present) && ListInv(c, serv, present) && x in present && x != me
    requires x in serv ==> serv[x].users == [] && serv[x].servers == []
    ensures TreeInv(me, c, depth, bound, present - {x}) && Subtree(c, depth, present, x) == {x}
  {
    forall y | y in present && y != x ensures !Under(c, depth, y, x) {
      NothingBehind(me, c, depth, bound, present, serv, x, y);
    }
    TreeLess(me, c, depth, bound, present, x);
  }

  lemma ParentFacts(me: Id, c: Clients, depth: map<Id, nat>, bound: nat, present: set<Id>, serv: map<Id, Serv>, x: Id)
    requires TreeInv(me, c, depth, bound, present) && ListInv(c, serv, present) && x in present
    ensures (x in serv <==> HasServ(c[x])) && (c[x].status.Me? <==> x == me)
    ensures InTree(c[x]) ==>
              var p := c[x].servptr; p in present && p != x && p in c && HasServ(c[p]) && p in serv
  {
  }

  // ------------------------------------------------------------------------------------
  // States of the daemon
  // ------------------------------------------------------------------------------------

  /**
   The lists of local clients; `exits` is exit_list, and `dropped` is how many clients were taken
   off unknown_list without lowering Count.unknown.
   */
  datatype Lists = Lists(servs: seq<Id>, unknown: seq<Id>, lclients: seq<Id>, locopers: seq<Id>, exits: seq<Id>, dropped: nat)

  /**
   `alive` are the allocated records and `freed` the released ones, in order. `present` are the
   clients that have not left; `depth` and `bound` witness that they form a tree.
   */
  datatype World = World(
    clients: Clients, serv: map<Id, Serv>, persons: set<Id>, count: map<Kind, int>, unknown: int,
    lists: Lists, closing: set<Id>, exited: set<Id>, global: seq<Id>, alive: set<Id>, freed: seq<Id>,
    sent: seq<Msg>, present: set<Id>, depth: map<Id, nat>, bound: nat)

  /** What exit_one_client and exit_recursion keep. */
  ghost predicate Core(me: Id, w: World) {
    && TreeInv(me, w.clients, w.depth, w.bound, w.present)
    && ListInv(w.clients, w.serv, w.present)
    && CountInv(w.clients, w.count, w.present, false)
    && (forall x :: x in w.present && w.clients[x].status.Client? ==> x in w.persons)
    && w.present <= w.alive && w.alive <= w.clients.Keys
    && SetOf(w.freed) !! w.alive && Distinct(w.freed)
    && SetOf(w.global) <= w.alive && Distinct(w.global)
  }

  /** Servers keep their count of refused users as long as they are there. */
  ghost predicate SameRefusals(serv: map<Id, Serv>, serv': map<Id, Serv>) {
    forall s :: s in serv' ==> s in serv && serv'[s].refused == serv[s].refused
  }

  /** What they do not touch. */
  ghost predicate Unaltered(w: World, w': World) {
    && w'.clients == w.clients && w'.depth == w.depth && w'.bound == w.bound
    && w'.lists == w.lists && w'.closing == w.closing && w'.unknown == w.unknown
    && w'.count.Keys == w.count.Keys
    && (forall k :: k in w.count && (IsLocalKind(k) || k == Repeats) ==> w'.count[k] == w.count[k])
    && SameRefusals(w.serv, w'.serv)
  }

  /** The clients in `xs` were released, in this order. */
  ghost predicate Released(w: World, w': World, xs: seq<Id>) {
    && SetOf(xs) <= w.present && LeavesFirst(w.clients, w.depth, xs)
    && w'.freed == w.freed + xs && w'.alive == w.alive - SetOf(xs)
    && w'.exited == w.exited + SetOf(xs)
    && SetOf(w'.global) == SetOf(w.global) - SetOf(xs)
  }

  /**
   The clients in `gone` have left the network and were released, in this order, and the servers
   among them were announced, and nothing else was sent.
   */
  ghost predicate Left(me: Id, w: World, w': World, source: Id, gone: seq<Id>) {
    && Unaltered(w, w') && Released(w, w', gone) && w'.present == w.present - SetOf(gone)
    && w'.sent == w.sent + Announce(w.lists.servs, me, source, w.clients, OnlyServers(w.clients, gone))
  }

  ghost function Behind(me: Id, w: World, s: Id): set<Id> {
    if s == me then {} else Subtree(w.clients, w.depth, w.present, s) - {s}
  }

  ghost function Level(w: World, x: Id): nat {
    if x in w.depth && w.depth[x] <= w.bound then w.bound - w.depth[x] else 0
  }

  /** The QUIT of a user who leaves alone; after a KILL it is not sent. */
  function QuitOf(w: World, x: Id, split: bool): seq<Msg> {
    if x in w.clients && w.clients[x].status.Client? && !split && !w.clients[x].killed
    then QuitTo(w.lists.servs, w.clients[x].from, x) else []
  }

  /** What exit_one_client sends when it takes along `gone`. */
  function ExitMessages(me: Id, w: World, x: Id, source: Id, split: bool, gone: seq<Id>): seq<Msg> {
    var lost := OnlyServers(w.clients, gone) + if IsServer(w.clients, x) then [x] else [];
    Announce(w.lists.servs, me, source, w.clients, lost) + QuitOf(w, x, split)
  }

  /** What exit_one_client does: all behind `x` is released, and `x` leaves but stays allocated. */
  ghost predicate OneLeft(me: Id, w: World, w': World, x: Id, source: Id, split: bool, gone: seq<Id>) {
    && Unaltered(w, w') && Released(w, w', gone) && SetOf(gone) == Behind(me, w, x)
    && w'.present == w.present - SetOf(gone) - (if x == me then {} else {x})
    && w'.sent == w.sent + ExitMessages(me, w, x, source, split, gone)
    && (!IsServer(w.clients, x) ==> gone == [])
  }

  lemma StillAlive(me: Id, w: World, w': World, x: Id, gone: seq<Id>)
    requires Core(me, w) && Core(me, w') && Released(w, w', gone) && x in w.present && x !in SetOf(gone)
    ensures x in w'.alive
  {
  }

  lemma DiscardLeft(me: Id, w: World, w1: World, w2: World, x: Id, source: Id, gone: seq<Id>)
    requires Core(me, w) && x in w.present && x != me && OneLeft(me, w, w1, x, source, true, gone)
    requires w2 == w1.(global := Without(w1.global, x), freed := w1.freed + [x],
                       alive := w1.alive - {x}, exited := w1.exited + {x})
    ensures Left(me, w, w2, source, gone + [x])
    ensures SetOf(gone + [x]) == Subtree(w.clients, w.depth, w.present, x) && w2.present < w.present
  {
    hide Core, LeavesFirst, Announce, OnlyServers, Without, SetOf;
    WithoutSet(w1.global, x);
    SetOfLast(gone, x);
    assert Under(w.clients, w.depth, x, x);
    LeavesLast(me, w, x, gone);
    OnlyServersLast(w.clients, gone, x);
    assert w1.freed + [x] == w.freed + (gone + [x]);
  }

  lemma SetOfLast(xs: seq<Id>, x: Id)
    ensures SetOf(xs + [x]) == SetOf(xs) + {x}
  {
  }

  lemma OnlyServersLast(c: Clients, xs: seq<Id>, x: Id)
    ensures OnlyServers(c, xs + [x]) == OnlyServers(c, xs) + if IsServer(c, x) then [x] else []
  {
    assert (xs + [x])[..|xs|] == xs;
  }

  lemma LeavesLast(me: Id, w: World, x: Id, gone: seq<Id>)
    requires Core(me, w) && x in w.present && SetOf(gone) <= Behind(me, w, x)
    requires LeavesFirst(w.clients, w.depth, gone)
    ensures LeavesFirst(w.clients, w.depth, gone + [x])
  {
    hide Core;
    forall i | 0 <= i < |gone| ensures !Under(w.clients, w.depth, x, gone[i]) {
      assert gone[i] in SetOf(gone);
      NotAbove(me, w, x, gone[i]);
    }
  }

  /** Nothing behind a client has that client behind it. */
  lemma NotAbove(me: Id, w: World, x: Id, y: Id)
    requires Core(me, w) && x in w.present && y in Behind(me, w, x)
    ensures !Under(w.clients, w.depth, x, y)
  {
    assert y in w.present && y != x && Under(w.clients, w.depth, y, x);
    if Under(w.clients, w.depth, x, y) {
      UpIsPresent(me, w.clients, w.depth, w.bound, w.present, w.clients[y].servptr, x);
      UpIsPresent(me, w.clients, w.depth, w.bound, w.present, x, y);
    }
  }

  lemma CoreFacts(me: Id, w: World, x: Id)
    requires Core(me, w) && x in w.present
    ensures x in w.clients && x in w.alive && (w.clients[x].status.Client? ==> x in w.persons)
    ensures w.clients[x].status.Me? <==> x == me
    ensures x in w.serv <==> HasServ(w.clients[x])
  {
  }

  lemma CoreSent(me: Id, w: World, msgs: seq<Msg>)
    requires Core(me, w)
    ensures Core(me, w.(sent := msgs))
  {
  }

  lemma ServerOneLeft(me: Id, w: World, w1: World, w2: World, x: Id, source: Id, split: bool, gone: seq<Id>)
    requires IsServer(w.clients, x) && x in w.present && x != me && Left(me, w, w1, source, gone)
    requires SetOf(gone) == Behind(me, w, x)
    requires Unaltered(w1, w2) && w2.present == w1.present - {x}
    requires w2.sent == w1.sent + SquitTo(w.lists.servs, me, source, w.clients[x].from, x)
    requires w2.freed == w1.freed && w2.alive == w1.alive && w2.exited == w1.exited && w2.global == w1.global
    ensures OneLeft(me, w, w2, x, source, split, gone)
  {
    hide ExitMessages, Announce, SquitTo, Behind, LeavesFirst, OnlyServers, SetOf, SameRefusals;
    ServerMessages(me, w, x, source, split, gone);
    RefusalsTwice(w.serv, w1.serv, w2.serv);
  }

  /** What is sent for a server is what is sent for those behind it, and the SQUITs for itself. */
  lemma ServerMessages(me: Id, w: World, x: Id, source: Id, split: bool, gone: seq<Id>)
    requires IsServer(w.clients, x)
    ensures ExitMessages(me, w, x, source, split, gone) ==
            Announce(w.lists.servs, me, source, w.clients, OnlyServers(w.clients, gone)) +
            SquitTo(w.lists.servs, me, source, w.clients[x].from, x)
  {
    hide SquitTo, OnlyServers;
    var lost := OnlyServers(w.clients, gone);
    assert (lost + [x])[..|lost|] == lost;
  }

  lemma RefusalsTwice(serv0: map<Id, Serv>, serv1: map<Id, Serv>, serv2: map<Id, Serv>)
    requires SameRefusals(serv0, serv1) && SameRefusals(serv1, serv2)
    ensures SameRefusals(serv0, serv2)
  {
  }

  lemma OtherOneLeft(me: Id, w: World, w': World, x: Id, source: Id, split: bool)
    requires Core(me, w) && !IsServer(w.clients, x) && x in w.present && x != me
    requires Unaltered(w, w') && w'.present == w.present - {x}
    requires w'.sent == w.sent + QuitOf(w, x, split)
    requires w'.freed == w.freed && w'.alive == w.alive && w'.exited == w.exited && w'.global == w.global
    ensures OneLeft(me, w, w', x, source, split, [])
  {
    hide Core, Behind;
    LeafBehind(me, w, x);
    MeIsMe(me, w);
    assert Announce(w.lists.servs, me, source, w.clients, []) == [];
    assert w.freed + [] == w.freed;
  }

  /** The tables before one client is taken out of them. */
  lemma UnlinkFacts(me: Id, w: World, x: Id)
    requires Core(me, w) && x in w.present
    ensures x in w.clients && (forall k: Kind :: k in w.count) && (w.clients[x].status.Me? <==> x == me)
    ensures (x in w.serv <==> HasServ(w.clients[x])) && (w.clients[x].status.Client? ==> x in w.persons)
    ensures InTree(w.clients[x]) ==> w.clients[x].servptr in w.serv && w.clients[x].servptr != x
  {
    hide TreeInv, ListInv, CountInv;
    ParentFacts(me, w.clients, w.depth, w.bound, w.present, w.serv, x);
    CountKinds(w.clients, w.count, w.present);
  }

  /** A client with nothing behind it is out of the tables, and they agree again. */
  lemma UnlinkedKeeps(me: Id, w: World, w': World, x: Id)
    requires Core(me, w) && x in w.present && x != me && (x in w.serv ==> w.serv[x].users == [] && w.serv[x].servers == [])
    requires x in w.clients && w' == w.(serv := w'.serv, count := Less(w.count, w.clients[x], false), persons := w'.persons, present := w.present - {x})
    requires w'.serv.Keys == w.serv.Keys - {x} && w.persons - {x} <= w'.persons
    requires forall s :: s in w.serv && s != x ==>
               w'.serv[s] == if InTree(w.clients[x]) && s == w.clients[x].servptr then Dropped(w.serv[s], w.clients[x], x) else w.serv[s]
    ensures Core(me, w') && Unaltered(w, w')
  {
    hide Dropped, TreeInv, ListInv, CountInv, Less, SameRefusals;
    ParentFacts(me, w.clients, w.depth, w.bound, w.present, w.serv, x);
    UnlinkTree(me, w.clients, w.depth, w.bound, w.present, w.serv, x);
    CountLess(w.clients, w.count, w.present, x, false);
    CountKinds(w.clients, w.count, w.present);
    LessKeeps(w.count, w.clients[x], false);
    ListLess(w.clients, w.serv, w.present, x, w'.serv);
    RefusalsKept(w, w', x);
  }

  lemma RefusalsKept(w: World, w': World, x: Id)
    requires x in w.clients && w'.serv.Keys == w.serv.Keys - {x}
    requires forall s :: s in w.serv && s != x ==>
               w'.serv[s] == if InTree(w.clients[x]) && s == w.clients[x].servptr then Dropped(w.serv[s], w.clients[x], x) else w.serv[s]
    ensures SameRefusals(w.serv, w'.serv)
  {
  }

  /** Nothing is behind a user. */
  lemma LeafBehind(me: Id, w: World, x: Id)
    requires Core(me, w) && !IsServer(w.clients, x) && x in w.present && x != me
    ensures Behind(me, w, x) == {} && x in w.clients && !w.clients[x].status.Server?
  {
    hide TreeInv, ListInv, CountInv;
    CoreFacts(me, w, x);
    UnlinkTree(me, w.clients, w.depth, w.bound, w.present, w.serv, x);
  }

  lemma MeIsMe(me: Id, w: World)
    requires Core(me, w)
    ensures me in w.present && me in w.clients && w.clients[me].status.Me?
  {
  }

  lemma MeStays(me: Id, w: World, source: Id, split: bool)
    requires Core(me, w)
    ensures OneLeft(me, w, w, me, source, split, [])
  {
    hide Core, Subtree;
    MeIsMe(me, w);
    assert Announce(w.lists.servs, me, source, w.clients, []) == [];
    assert w.freed + [] == w.freed && w.sent + [] == w.sent;
  }

  lemma LeftKept(me: Id, w: World, w': World, source: Id, gone: seq<Id>)
    requires Left(me, w, w', source, gone)
    ensures w'.lists == w.lists && w'.clients == w.clients
  {
  }

  lemma SetOfNothing()
    ensures SetOf([]) == {}
  {
  }

  lemma LessKeeps(count: map<Kind, int>, i: Info, local: bool)
    ensures Less(count, i, local).Keys == count.Keys
    ensures forall k :: k in count && (IsLocalKind(k) != local || k == Repeats) ==> Less(count, i, local)[k] == count[k]
  {
  }

  lemma LeftNothing(me: Id, w: World, source: Id)
    requires Core(me, w)
    ensures Left(me, w, w, source, [])
  {
    hide Core;
    assert SetOf([]) == {};
    assert w.freed + [] == w.freed && w.sent + [] == w.sent;
  }

  /** Two departures, one after the other, are one. */
  lemma LeftAppend(me: Id, w0: World, w1: World, w2: World, source: Id, a: seq<Id>, b: seq<Id>)
    requires Core(me, w1) && Left(me, w0, w1, source, a) && Left(me, w1, w2, source, b)
    ensures Left(me, w0, w2, source, a + b) && SetOf(a + b) == SetOf(a) + SetOf(b)
  {
    hide SquitTo, IsServer, Under, TreeInv, ListInv, CountInv, Announce, OnlyServers;
    LeavesFirstAppend(me, w1.clients, w1.depth, w1.bound, w1.present, a, b);
    OnlyServersAppend(w0.clients, a, b);
    AnnounceAppend(w0.lists.servs, me, source, w0.clients, OnlyServers(w0.clients, a), OnlyServers(w0.clients, b));
    SetOfAppend(a, b);
    assert w0.freed + (a + b) == w0.freed + a + b;
  }

  lemma SetOfAppend(a: seq<Id>, b: seq<Id>)
    ensures SetOf(a + b) == SetOf(a) + SetOf(b)
  {
  }

  /** The source of a split matters only to the servers that it takes along. */
  lemma LeftAnySource(me: Id, w: World, w': World, source: Id, x: Id, other: Id)
    requires Left(me, w, w', source, [x]) && !IsServer(w.clients, x)
    ensures Left(me, w, w', other, [x])
  {
    assert OnlyServers(w.clients, [x]) == [];
  }

  /** What hangs on a server is behind it, and so is all that is behind that. */
  lemma ChildFacts(me: Id, w: World, s: Id, x: Id)
    requires Core(me, w) && s in w.present && s in w.serv && s != me
    requires x in w.serv[s].users || x in w.serv[s].servers
    ensures x in w.present && x != me && x != s && Level(w, x) < Level(w, s)
    ensures x in w.serv[s].users ==> !IsServer(w.clients, x)
    ensures x in w.serv[s].servers ==> IsServer(w.clients, x)
    ensures Subtree(w.clients, w.depth, w.present, x) <= Behind(me, w, s)
  {
    assert Under(w.clients, w.depth, x, s);
    forall y | y in w.present && Under(w.clients, w.depth, y, x) ensures Under(w.clients, w.depth, y, s) && y != s {
      UnderTransitive(w.clients, w.depth, y, x, s);
      UpIsPresent(me, w.clients, w.depth, w.bound, w.present, y, x);
    }
  }

  /** While clients leave, a server that stays never gains anything behind it. */
  lemma BehindShrinks(me: Id, w: World, w': World, source: Id, gone: seq<Id>, s: Id)
    requires Core(me, w) && Core(me, w') && Left(me, w, w', source, gone)
    requires s in w.present && SetOf(gone) <= Behind(me, w, s)
    ensures w'.clients == w.clients && w'.depth == w.depth && w'.bound == w.bound && w'.present <= w.present
    ensures s in w'.present && Behind(me, w', s) <= Behind(me, w, s)
    ensures Subtree(w'.clients, w'.depth, w'.present, s) <= Subtree(w.clients, w.depth, w.present, s)
    ensures s in w.serv ==> s in w'.serv
    ensures s in w.serv && w.serv[s].users == [] ==> w'.serv[s].users == []
  {
    hide Announce, OnlyServers, CountInv, ListInv, TreeInv, LeavesFirst;
    assert s !in SetOf(gone);
    UsersStayEmpty(w.clients, w.serv, w.present, w'.serv, w'.present, s);
  }

  lemma UsersStayEmpty(c: Clients, serv: map<Id, Serv>, present: set<Id>, serv': map<Id, Serv>, present': set<Id>, s: Id)
    requires present' <= present && present <= c.Keys && s in present'
    requires ListInv(c, serv, present) && ListInv(c, serv', present')
    ensures s in serv <==> s in serv'
    ensures s in serv && serv[s].users == [] ==> serv'[s].users == []
  {
    if s in serv {
      assert forall u :: u in serv'[s].users ==> u in serv[s].users;
      assert serv'[s].users != [] ==> serv'[s].users[0] in serv'[s].users;
    }
  }

  /** When the lists of a server are empty, all that was behind it has left. */
  lemma AllBehindGone(me: Id, w: World, w': World, source: Id, gone: seq<Id>, s: Id)
    requires Core(me, w) && Core(me, w') && Left(me, w, w', source, gone)
    requires s in w.present && s != me && SetOf(gone) <= Behind(me, w, s)
    requires s in w'.serv ==> w'.serv[s].users == [] && w'.serv[s].servers == []
    ensures SetOf(gone) == Behind(me, w, s)
  {
    hide TreeInv, ListInv, CountInv, Announce, OnlyServers, LeavesFirst;
    forall x | x in Behind(me, w, s) ensures x in SetOf(gone) {
      if x in w'.present {
        NothingBehind(me, w'.clients, w'.depth, w'.bound, w'.present, w'.serv, s, x);
      }
    }
  }


  // ------------------------------------------------------------------------------------
  // Between exits
  // ------------------------------------------------------------------------------------

  /** Exactly our own users and servers hang on us, and a client comes through the link `from`. */
  ghost predicate FromInv(me: Id, c: Clients, present: set<Id>)
    requires present <= c.Keys
  {
    && (forall x :: x in present && c[x].local ==> c[x].from == x)
    && (forall x :: x in present && InTree(c[x]) ==>
          && (c[x].local <==> c[x].servptr == me)
          && (!c[x].local ==> c[x].servptr in c && c[x].from == c[c[x].servptr].from))
  }

  ghost predicate ListOf(xs: seq<Id>, yes: set<Id>) {
    Distinct(xs) && SetOf(xs) == yes
  }

  ghost function LocalOpers(c: Clients, present: set<Id>): set<Id>
    requires present <= c.Keys
  {
    set x | x in Those(c, present, Local) && c[x].oper
  }

  /**
   unknown_list holds the clients that have not registered, each once; httpd takes its clients
   off the list before they would.
   */
  ghost predicate UnknownExact(c: Clients, present: set<Id>, xs: seq<Id>)
    requires present <= c.Keys
  {
    && Distinct(xs) && (forall x :: x in xs ==> x in present && IsUnregistered(c[x]))
    && (forall x :: x in present && IsUnregistered(c[x]) && !c[x].httpListener ==> x in xs)
  }

  predicate IsUnregistered(i: Info) {
    i.local && i.status.Unregistered?
  }

  /** The lists of local clients are exact. */
  ghost predicate ListsExact(c: Clients, present: set<Id>, l: Lists)
    requires present <= c.Keys
  {
    && ListOf(l.servs, Those(c, present, MyServer))
    && ListOf(l.lclients, Those(c, present, Local))
    && ListOf(l.locopers, LocalOpers(c, present))
    && UnknownExact(c, present, l.unknown)
  }

  /** The lists of local clients and their counters are exact. */
  ghost predicate LocalInv(w: World)
    requires w.present <= w.clients.Keys
  {
    && ListsExact(w.clients, w.present, w.lists) && w.unknown == |w.lists.unknown| + w.lists.dropped
    && CountInv(w.clients, w.count, w.present, true)
  }

  /** Whoever has left is either on exit_list, once, or released, once. */
  ghost predicate LifeInv(w: World)
    requires w.present <= w.clients.Keys
  {
    && w.present == w.alive - w.exited
    && w.exited == SetOf(w.freed) + SetOf(w.lists.exits) && w.exited <= w.clients.Keys
    && Distinct(w.lists.exits) && SetOf(w.lists.exits) <= w.alive
    && (forall x :: x in w.lists.exits ==> x in w.clients && w.clients[x].local && w.clients[x].from == x)
    && (forall x :: x in w.present && x in w.closing ==> w.clients[x].local && w.clients[x].httpListener)
    && (forall x :: x in w.alive && IsServer(w.clients, x) ==> x in SetOf(w.global))
    && (forall x :: x in w.present && IsUnregistered(w.clients[x]) ==>
          !w.clients[x].oper && (w.clients[x].invisible ==> x in SetOf(w.global)))
  }

  /** What holds between calls. */
  ghost predicate Inv(me: Id, w: World) {
    Core(me, w) && FromInv(me, w.clients, w.present) && LocalInv(w) && LifeInv(w)
  }

  /** The lists without a local client that exits. */
  function Unlisted(l: Lists, i: Info, x: Id): Lists {
    l.(unknown := Without(l.unknown, x),
       servs := if i.status.Server? then Without(l.servs, x) else l.servs,
       lclients := if i.status.Client? then Without(l.lclients, x) else l.lclients,
       locopers := if i.status.Client? && i.oper then Without(l.locopers, x) else l.locopers)
  }

  lemma LocalCounts(count: map<Kind, int>, i: Info)
    requires (forall k: Kind :: k in count) && i.local
    ensures var c1 := Dec(count, Local, i.status.Client?);
            var c2 := Dec(Dec(c1, MyServer, i.status.Server?), MyUlined, i.status.Server? && i.uline);
            Dec(c2, MyService, i.status.Service?) == Less(count, i, true)
  {
  }

  lemma WithoutSize(xs: seq<Id>, x: Id)
    requires Distinct(xs)
    ensures |Without(xs, x)| == |xs| - if x in xs then 1 else 0
    ensures x !in xs ==> Without(xs, x) == xs
  {
    WithoutDistinct(xs, x);
    if x !in xs {
      WithoutStranger(xs, x);
    }
  }

  /** Nothing behind another client is local. */
  lemma {:induction false} BehindIsRemote(me: Id, w: World, x: Id, y: Id)
    requires Core(me, w) && FromInv(me, w.clients, w.present)
    requires x in w.present && x != me && y in Behind(me, w, x)
    ensures !w.clients[y].local && InTree(w.clients[y])
  {
    assert y in w.present && y != x && Under(w.clients, w.depth, y, x);
    assert !Under(w.clients, w.depth, me, x);
  }

  /** When `x` and all behind it leave, the other local clients stay. */
  lemma LocalsStay(me: Id, w: World, x: Id, present': set<Id>)
    requires Core(me, w) && FromInv(me, w.clients, w.present) && x in w.present && x != me
    requires present' == w.present - Behind(me, w, x) - {x}
    ensures forall y :: y in w.present && w.clients[y].local ==> (y in present' <==> y != x)
    ensures FromInv(me, w.clients, present')
  {
    forall y | y in Behind(me, w, x) ensures !w.clients[y].local {
      BehindIsRemote(me, w, x, y);
    }
  }

  lemma ListOfLess(xs: seq<Id>, yes: set<Id>, x: Id)
    requires ListOf(xs, yes)
    ensures ListOf(Without(xs, x), yes - {x})
  {
    WithoutSet(xs, x);
  }

  /** `present'` is `present` without the local client `x` and without some remote ones. */
  ghost predicate LocalsLess(c: Clients, present: set<Id>, present': set<Id>, x: Id)
    requires present <= c.Keys
  {
    && x in present && c[x].local && present' <= present
    && (forall y :: y in present && c[y].local ==> (y in present' <==> y != x))
  }

  lemma ThoseLocals(c: Clients, present: set<Id>, present': set<Id>, x: Id, k: Kind)
    requires present <= c.Keys && LocalsLess(c, present, present', x) && IsLocalKind(k)
    ensures Those(c, present', k) == Those(c, present, k) - {x} == Those(c, present - {x}, k)
    ensures LocalOpers(c, present') == LocalOpers(c, present) - {x}
  {
  }

  lemma ListsLess(c: Clients, present: set<Id>, present': set<Id>, l: Lists, x: Id)
    requires present <= c.Keys && LocalsLess(c, present, present', x) && ListsExact(c, present, l)
    ensures ListsExact(c, present', Unlisted(l, c[x], x)) && |Without(l.unknown, x)| == |l.unknown| - if x in l.unknown then 1 else 0
  {
    hide Without, Distinct;
    ThoseLocals(c, present, present', x, MyServer);
    ThoseLocals(c, present, present', x, Local);
    ListOfLess(l.servs, Those(c, present, MyServer), x);
    ListOfLess(l.lclients, Those(c, present, Local), x);
    ListOfLess(l.locopers, LocalOpers(c, present), x);
    WithoutMembers(l.unknown, x);
    WithoutDistinct(l.unknown, x);
  }

  lemma LocalCountLess(c: Clients, present: set<Id>, present': set<Id>, count: map<Kind, int>, x: Id)
    requires present <= c.Keys && LocalsLess(c, present, present', x) && CountInv(c, count, present, true)
    ensures CountInv(c, Less(count, c[x], true), present', true)
  {
    hide Matches, Less, Those;
    CountLess(c, count, present, x, true);
    forall k: Kind | IsLocalKind(k) {
      ThoseLocals(c, present, present', x, k);
    }
  }

  /** The local lists and counters when only remote clients leave. */
  lemma LocalInvKept(w: World, w': World)
    requires w.present <= w.clients.Keys && LocalInv(w)
    requires w'.clients == w.clients && w'.present <= w.present && w'.lists == w.lists && w'.unknown == w.unknown
    requires w'.count.Keys == w.count.Keys && forall k :: k in w.count && (IsLocalKind(k) || k == Repeats) ==> w'.count[k] == w.count[k]
    requires forall y :: y in w.present && w.clients[y].local ==> y in w'.present
    ensures LocalInv(w')
  {
    forall k: Kind | IsLocalKind(k) ensures Those(w'.clients, w'.present, k) == Those(w.clients, w.present, k) {
    }
    assert LocalOpers(w'.clients, w'.present) == LocalOpers(w.clients, w.present);
  }

  /** A local client that exits, before exit_one_client is called. */
  function Departing(w: World, x: Id): World {
    var w1 := w.(closing := w.closing + {x});
    if x in w.clients && w.clients[x].local
    then w1.(lists := Unlisted(w.lists, w.clients[x], x), count := Less(w.count, w.clients[x], true),
             unknown := w.unknown - if x in w.lists.unknown then 1 else 0)
    else w1
  }

  lemma DepartingCore(me: Id, w: World, x: Id)
    requires Core(me, w) && x in w.clients
    ensures Core(me, Departing(w, x)) && Behind(me, Departing(w, x), x) == Behind(me, w, x)
  {
    hide TreeInv, ListInv, Matches, Less;
    LessKeeps(w.count, w.clients[x], true);
  }

  /** exit_client lets this client go. */
  predicate Exitable(me: Id, w: World, x: Id) {
    && x in w.clients && x != me && x !in w.exited && x !in w.closing && !w.clients[x].httpClient
    && !(w.clients[x].local && w.clients[x].httpListener)
  }

  /** What exit_client does to a client that it lets go. */
  ghost predicate ClientExits(me: Id, w: World, w': World, x: Id, source: Id, gone: seq<Id>)
    requires x in w.clients
  {
    && SetOf(gone) == Behind(me, w, x) && LeavesFirst(w.clients, w.depth, gone) && w'.closing == w.closing + {x}
    && w'.clients == w.clients && w'.present == w.present - Subtree(w.clients, w.depth, w.present, x)
    && w'.sent == w.sent + ExitMessages(me, Departing(w, x), x, source, false, gone)
    && w'.freed == w.freed + gone + (if w.clients[x].local then [] else [x])
    && w'.lists.exits == (if w.clients[x].local then [x] else []) + w.lists.exits
  }

  lemma LocalExitLists(me: Id, w: World, w1: World, x: Id, source: Id, gone: seq<Id>)
    requires Inv(me, w) && x in w.present && Exitable(me, w, x) && w.clients[x].local
    requires Core(me, w1) && OneLeft(me, Departing(w, x), w1, x, source, false, gone)
    ensures LocalInv(w1) && FromInv(me, w1.clients, w1.present)
  {
    hide Matches, Less, Without, ExitMessages, ListsExact, Released, TreeInv, ListInv, SetOf, Those, LifeInv, LeavesFirst, Subtree;
    DepartingCore(me, w, x);
    LocalsStay(me, w, x, w1.present);
    LessKeeps(w.count, w.clients[x], true);
    ListsLess(w.clients, w.present, w1.present, w.lists, x);
    LocalCountLess(w.clients, w.present, w1.present, w.count, x);
  }

  lemma LocalExitLife(me: Id, w: World, w1: World, x: Id, source: Id, gone: seq<Id>)
    requires Inv(me, w) && x in w.present && Exitable(me, w, x) && w.clients[x].local
    requires Core(me, w1) && OneLeft(me, Departing(w, x), w1, x, source, false, gone)
    ensures LifeInv(w1.(lists := w1.lists.(exits := [x] + w1.lists.exits), exited := w1.exited + {x}))
  {
    hide Matches, Less, Without, ExitMessages, ListsExact, TreeInv, ListInv, CountInv, LeavesFirst, LocalInv, Subtree;
    DepartingCore(me, w, x);
    SetOfAppend(w.freed, gone);
    SetOfAppend([x], w.lists.exits);
    assert SetOf([x]) == {x};
    assert x !in SetOf(w.lists.exits);
    DistinctFront(x, w.lists.exits);
    var w2 := w1.(lists := w1.lists.(exits := [x] + w1.lists.exits), exited := w1.exited + {x});
    assert SetOf(w2.lists.exits) <= w2.alive;
  }

  lemma DistinctFront(x: Id, xs: seq<Id>)
    requires Distinct(xs) && x !in SetOf(xs)
    ensures Distinct([x] + xs)
  {
    forall j | 0 <= j < |xs| ensures xs[j] != x {
      assert xs[j] in SetOf(xs);
    }
  }

  lemma LocalExitKeeps(me: Id, w: World, w1: World, x: Id, source: Id, gone: seq<Id>)
    requires Inv(me, w) && x in w.present && Exitable(me, w, x) && w.clients[x].local
    requires Core(me, w1) && OneLeft(me, Departing(w, x), w1, x, source, false, gone)
    ensures var w2 := w1.(lists := w1.lists.(exits := [x] + w1.lists.exits), exited := w1.exited + {x});
            Inv(me, w2) && ClientExits(me, w, w2, x, source, gone)
  {
    hide Matches, Less, Without, ExitMessages, LeavesFirst, TreeInv, ListInv, CountInv, LifeInv, FromInv, ListOf, Those, LocalOpers;
    DepartingCore(me, w, x);
    LocalExitLists(me, w, w1, x, source, gone);
    LocalExitLife(me, w, w1, x, source, gone);
    assert w.freed + gone + [] == w.freed + gone;
  }

  lemma InvFacts(me: Id, w: World, x: Id)
    requires Inv(me, w) && x in w.alive
    ensures x in w.clients && (x !in w.exited ==> x in w.present)
    ensures Distinct(w.lists.unknown) && forall k: Kind :: k in w.count
  {
  }

  lemma HttpStays(me: Id, w: World, x: Id)
    requires Inv(me, w) && x in w.present && w.clients[x].local && w.clients[x].httpListener
    ensures Inv(me, w.(closing := w.closing + {x}))
  {
    hide TreeInv, ListInv, CountInv, FromInv, ListsExact;
  }

  lemma RemoteExitLists(me: Id, w: World, w1: World, x: Id, source: Id, gone: seq<Id>)
    requires Inv(me, w) && x in w.present && Exitable(me, w, x) && !w.clients[x].local
    requires Core(me, w1) && OneLeft(me, Departing(w, x), w1, x, source, false, gone)
    ensures LocalInv(w1) && FromInv(me, w1.clients, w1.present)
  {
    hide Matches, ExitMessages, Released, ListInv, CountInv, ListsExact, SetOf;
    DepartingCore(me, w, x);
    LocalsStay(me, w, x, w1.present);
    LocalInvKept(w, w1);
  }

  lemma RemoteExitKeeps(me: Id, w: World, w1: World, x: Id, source: Id, gone: seq<Id>)
    requires Inv(me, w) && x in w.present && Exitable(me, w, x) && !w.clients[x].local
    requires Core(me, w1) && OneLeft(me, Departing(w, x), w1, x, source, false, gone)
    ensures x in w1.alive && x !in w1.present
    ensures var w2 := w1.(global := Without(w1.global, x), freed := w1.freed + [x],
                          alive := w1.alive - {x}, exited := w1.exited + {x});
            Core(me, w2) ==> Inv(me, w2) && ClientExits(me, w, w2, x, source, gone)
  {
    hide Matches, Less, Without, ExitMessages, LeavesFirst, TreeInv, ListInv, CountInv, ListsExact, FromInv, Under;
    DepartingCore(me, w, x);
    RemoteExitLists(me, w, w1, x, source, gone);
    SetOfAppend(w.freed, gone);
    SetOfLast(w1.freed, x);
    WithoutSet(w1.global, x);
    assert Under(w.clients, w.depth, x, x) by { UnderSelf(w.clients, w.depth, x); }
  }

  lemma UnderSelf(c: Clients, depth: map<Id, nat>, x: Id)
    ensures Under(c, depth, x, x)
  {
  }

  /** An exited client is taken off the end of exit_list and released. */
  lemma ReclaimKeeps(me: Id, w: World, x: Id)
    requires Inv(me, w) && w.lists.exits != [] && x == w.lists.exits[|w.lists.exits| - 1]
    ensures x in w.alive && x in w.exited && x !in w.present
    ensures var w1 := w.(global := Without(w.global, x), freed := w.freed + [x],
                         alive := w.alive - {x}, exited := w.exited + {x});
            Core(me, w1) ==> Inv(me, w1.(lists := w.lists.(exits := w.lists.exits[..|w.lists.exits| - 1])))
  {
    hide Without, TreeInv, ListInv, CountInv, FromInv, Those, LocalOpers, ListOf;
    var n := |w.lists.exits| - 1;
    var init := w.lists.exits[..n];
    assert w.lists.exits == init + [x];
    SetOfLast(init, x);
    assert x in SetOf(w.lists.exits);
    SetOfLast(w.freed, x);
    WithoutSet(w.global, x);
    assert x !in SetOf(init);
  }

  /** A connection, add_client_to_list, httpd, a failure path, USER, registration, introduction, exit, reclaim. */
  datatype Step =
    | Connect(x: Id, http: bool) | Greet(x: Id) | Serve(x: Id) | Abort(x: Id) | User(x: Id)
    | Register(x: Id, info: Info) | Introduce(x: Id, info: Info)
    | Exit(x: Id, source: Id) | Reclaim

  lemma NoneExited(me: Id, w: World)
    requires Inv(me, w) && w.lists.exits == []
    ensures w.alive == w.present
  {
    hide TreeInv, ListInv, CountInv, FromInv, LocalInv;
    assert SetOf([]) == {};
  }

  function Reverse(xs: seq<Id>): seq<Id>
    decreases |xs|
  {
    if xs == [] then [] else [xs[|xs| - 1]] + Reverse(xs[..|xs| - 1])
  }

  // ------------------------------------------------------------------------------------
  // Clients that join
  // ------------------------------------------------------------------------------------

  /** A new server or user, with the link and the server that it comes from. */
  predicate Joinable(me: Id, c: Clients, serv: map<Id, Serv>, x: Id, i: Info) {
    && x !in c && InTree(i) && i.servptr in serv && i.servptr in c && HasServ(c[i.servptr])
    && (i.local <==> i.servptr == me) && i.from == (if i.local then x else c[i.servptr].from)
  }

  /** add_client_to_llist and the counter beside it */
  function Added(v: Serv, i: Info, x: Id): Serv {
    if i.status.Server? then v.(servers := [x] + v.servers, servercnt := v.servercnt + 1)
    else v.(users := [x] + v.users, usercnt := v.usercnt + 1)
  }

  function More(count: map<Kind, int>, i: Info): map<Kind, int> {
    map k | k in count :: count[k] + if Matches(k, i) then 1 else 0
  }

  function Listed(l: Lists, i: Info, x: Id): Lists {
    l.(servs := if i.local && i.status.Server? then [x] + l.servs else l.servs,
       lclients := if i.local && i.status.Client? then [x] + l.lclients else l.lclients,
       locopers := if i.local && i.status.Client? && i.oper then [x] + l.locopers else l.locopers)
  }

  /** The tree when `x` has joined. */
  function Planted(w: World, x: Id, i: Info): World
    requires i.servptr in w.serv && i.servptr in w.depth
  {
    var serv := w.serv[i.servptr := Added(w.serv[i.servptr], i, x)];
    var d := w.depth[i.servptr] + 1;
    w.(clients := w.clients[x := i],
       serv := if i.status.Server? then serv[x := NOBODY] else serv,
       present := w.present + {x}, depth := w.depth[x := d], bound := if d > w.bound then d else w.bound)
  }

  /** The counters and lists when `x` has joined; `counted` is what is new about it for the counters. */
  function Booked(w: World, x: Id, i: Info, counted: Info): World {
    w.(persons := if i.status.Client? then w.persons + {x} else w.persons,
       count := More(w.count, counted), lists := Listed(w.lists, i, x), closing := w.closing - {x})
  }

  function Enrolled(w: World, x: Id, i: Info): World {
    Booked(w, x, i, i).(global := [x] + w.global, alive := w.alive + {x})
  }

  /** The state when `x` has been introduced. */
  function Joined(w: World, x: Id, i: Info): World
    requires i.servptr in w.serv && i.servptr in w.depth
  {
    Enrolled(Planted(w, x, i), x, i)
  }

  /** `c'` knows the clients of `c` and the new client `x`. */
  ghost predicate Extends(c: Clients, c': Clients, x: Id, i: Info) {
    && x !in c && c'.Keys == c.Keys + {x} && c'[x] == i
    && forall y :: y in c ==> c'[y] == c[y]
  }

  lemma ThoseMore(c: Clients, c': Clients, present: set<Id>, x: Id, i: Info, k: Kind)
    requires present <= c.Keys && Extends(c, c', x, i)
    ensures x !in Those(c, present, k)
    ensures Matches(k, i) ==> Those(c', present + {x}, k) == Those(c, present, k) + {x}
    ensures !Matches(k, i) ==> Those(c', present + {x}, k) == Those(c, present, k)
  {
    hide Matches;
  }

  lemma MoreKeeps(count: map<Kind, int>, i: Info)
    ensures More(count, i).Keys == count.Keys && (Repeats in count ==> More(count, i)[Repeats] == count[Repeats])
  {
  }

  lemma JoinCounts(c: Clients, c': Clients, present: set<Id>, x: Id, i: Info, count: map<Kind, int>, local: bool)
    requires present <= c.Keys && present <= c'.Keys && x in c'
    requires Extends(c, c', x, i) && CountInv(c, count, present, local)
    ensures CountInv(c', More(count, i), present + {x}, local)
  {
    hide Matches, Those, Extends;
    MoreKeeps(count, i);
    forall k: Kind | IsLocalKind(k) == local
      ensures |Those(c', present + {x}, k)| == |Those(c, present, k)| + if Matches(k, i) then 1 else 0
    {
      ThoseMore(c, c', present, x, i, k);
    }
  }

  lemma ListOfMore(xs: seq<Id>, yes: set<Id>, x: Id)
    requires ListOf(xs, yes) && x !in yes
    ensures ListOf([x] + xs, yes + {x})
  {
    DistinctFront(x, xs);
    SetOfAppend([x], xs);
    assert SetOf([x]) == {x};
  }

  lemma OpersMore(c: Clients, c': Clients, present: set<Id>, x: Id, i: Info)
    requires present <= c.Keys && Extends(c, c', x, i)
    ensures x !in LocalOpers(c, present)
    ensures Matches(Local, i) && i.oper ==> LocalOpers(c', present + {x}) == LocalOpers(c, present) + {x}
    ensures !(Matches(Local, i) && i.oper) ==> LocalOpers(c', present + {x}) == LocalOpers(c, present)
  {
    hide Matches;
    ThoseMore(c, c', present, x, i, Local);
  }

  lemma JoinLists(c: Clients, c': Clients, present: set<Id>, x: Id, i: Info, l: Lists)
    requires present <= c.Keys && Extends(c, c', x, i) && InTree(i) && ListsExact(c, present, l)
    ensures ListsExact(c', present + {x}, Listed(l, i, x))
    ensures Listed(l, i, x).unknown == l.unknown && Listed(l, i, x).dropped == l.dropped
  {
    hide ListOf, Those, LocalOpers;
    var l' := Listed(l, i, x);
    assert ListOf(l'.servs, Those(c', present + {x}, MyServer)) by {
      ThoseMore(c, c', present, x, i, MyServer);
      if Matches(MyServer, i) {
        ListOfMore(l.servs, Those(c, present, MyServer), x);
      }
    }
    assert ListOf(l'.lclients, Those(c', present + {x}, Local)) by {
      ThoseMore(c, c', present, x, i, Local);
      if Matches(Local, i) {
        ListOfMore(l.lclients, Those(c, present, Local), x);
      }
    }
    assert ListOf(l'.locopers, LocalOpers(c', present + {x})) by {
      OpersMore(c, c', present, x, i);
      if Matches(Local, i) && i.oper {
        ListOfMore(l.locopers, LocalOpers(c, present), x);
      }
    }
  }

  lemma ServMore(c: Clients, c': Clients, v: Serv, present: set<Id>, x: Id, i: Info)
    requires present <= c.Keys && Extends(c, c', x, i) && InTree(i) && ServExact(c, v, present, i.servptr)
    ensures ServExact(c', Added(v, i, x), present + {x}, i.servptr)
  {
    if i.status.Server? {
      assert x !in v.servers;
      DistinctFront(x, v.servers);
    } else {
      assert x !in v.users;
      DistinctFront(x, v.users);
    }
  }

  lemma ServKept(c: Clients, c': Clients, v: Serv, present: set<Id>, x: Id, i: Info, s: Id)
    requires present <= c.Keys && Extends(c, c', x, i) && s != i.servptr && ServExact(c, v, present, s)
    ensures ServExact(c', v, present + {x}, s)
  {
  }

  lemma ServNew(me: Id, w: World, c': Clients, x: Id, i: Info)
    requires Core(me, w) && Extends(w.clients, c', x, i) && i.servptr in w.present
    ensures ServExact(c', NOBODY, w.present + {x}, x)
  {
    hide ListInv, CountInv;
  }

  lemma JoinListInv(c: Clients, c': Clients, serv: map<Id, Serv>, serv': map<Id, Serv>, present: set<Id>, x: Id, i: Info)
    requires present <= c.Keys && Extends(c, c', x, i) && InTree(i) && ListInv(c, serv, present)
    requires serv'.Keys == serv.Keys + (if i.status.Server? then {x} else {})
    requires i.servptr in serv && serv'[i.servptr] == Added(serv[i.servptr], i, x)
    requires forall s :: s in serv && s != i.servptr ==> serv'[s] == serv[s]
    requires i.status.Server? ==> ServExact(c', serv'[x], present + {x}, x)
    ensures ListInv(c', serv', present + {x})
  {
    hide Added, ServExact;
    forall s | s in serv ensures ServExact(c', serv'[s], present + {x}, s) {
      if s == i.servptr {
        ServMore(c, c', serv[s], present, x, i);
      } else {
        ServKept(c, c', serv[s], present, x, i, s);
      }
    }
  }

  lemma JoinFacts(me: Id, w: World, x: Id, i: Info)
    requires Core(me, w) && Joinable(me, w.clients, w.serv, x, i)
    ensures i.servptr in w.serv && i.servptr in w.depth && x !in w.serv && i.servptr in w.present
  {
    hide CountInv;
  }

  lemma JoinServ(me: Id, w: World, x: Id, i: Info)
    requires Core(me, w) && Joinable(me, w.clients, w.serv, x, i)
    ensures i.servptr in w.serv && i.servptr in w.depth
    ensures var w' := Joined(w, x, i); ListInv(w'.clients, w'.serv, w'.present)
  {
    hide CountInv, Added, TreeInv, ListInv, ServExact, More, Listed;
    JoinFacts(me, w, x, i);
    var w' := Joined(w, x, i);
    ServNew(me, w, w'.clients, x, i);
    JoinListInv(w.clients, w'.clients, w.serv, w'.serv, w.present, x, i);
  }

  lemma JoinTree(me: Id, w: World, x: Id, i: Info)
    requires Core(me, w) && Joinable(me, w.clients, w.serv, x, i)
    requires i.servptr in w.serv && i.servptr in w.depth && i.servptr in w.present
    ensures var w' := Joined(w, x, i); TreeInv(me, w'.clients, w'.depth, w'.bound, w'.present)
  {
    hide ListInv, CountInv, Added, More, Listed;
  }

  lemma JoinFrom(me: Id, w: World, x: Id, i: Info, c': Clients)
    requires Core(me, w) && FromInv(me, w.clients, w.present) && Joinable(me, w.clients, w.serv, x, i)
    requires Extends(w.clients, c', x, i)
    ensures FromInv(me, c', w.present + {x})
  {
    hide ListInv, CountInv;
  }

  lemma JoinLife(me: Id, w: World, x: Id, i: Info)
    requires Inv(me, w) && Joinable(me, w.clients, w.serv, x, i)
    requires i.servptr in w.serv && i.servptr in w.depth
    ensures var w' := Joined(w, x, i);
            && (w'.present <= w'.clients.Keys ==> LifeInv(w'))
            && SetOf(w'.freed) !! w'.alive && SetOf(w'.global) <= w'.alive && Distinct(w'.global)
  {
    hide TreeInv, FromInv, ListInv, CountInv, LocalInv, Added, More;
    DistinctFront(x, w.global);
    SetOfAppend([x], w.global);
    assert SetOf([x]) == {x};
    FreedKnown(me, w, x);
  }

  /** Released clients were clients. */
  lemma FreedKnown(me: Id, w: World, x: Id)
    requires Inv(me, w) && x !in w.clients
    ensures x !in w.exited && x !in SetOf(w.freed)
  {
    hide ListInv, CountInv, LocalInv, FromInv, TreeInv;
  }

  lemma NoKind(self: Info, k: Kind)
    requires self.status.Me? && !self.local && !self.oper && !self.invisible
    ensures !Matches(k, self)
  {
  }

  lemma AloneInv(me: Id, w: World, self: Info)
    requires self.status.Me? && !self.local && !self.oper && !self.invisible
    requires w.clients == map[me := self] && w.serv == map[me := NOBODY] && w.persons == {}
    requires (forall k: Kind :: k in w.count && w.count[k] == 0) && w.unknown == 0
    requires w.lists == Lists([], [], [], [], [], 0) && w.closing == {} && w.exited == {} && w.global == [me]
    requires w.alive == {me} && w.freed == [] && w.present == {me} && w.depth == map[me := 0]
    ensures Inv(me, w)
  {
    hide Matches, Those, LocalOpers;
    forall k: Kind ensures Those(w.clients, w.present, k) == {} {
      AloneKind(me, w.clients, k);
    }
    assert SetOf([]) == {} && SetOf([me]) == {me};
    AloneOpers(me, w.clients);
  }

  lemma AloneKind(me: Id, c: Clients, k: Kind)
    requires me in c && c[me].status.Me? && !c[me].local && !c[me].oper && !c[me].invisible
    ensures Those(c, {me}, k) == {}
  {
    NoKind(c[me], k);
  }

  lemma AloneOpers(me: Id, c: Clients)
    requires me in c && !c[me].oper
    ensures LocalOpers(c, {me}) == {}
  {
  }

  /** A client that joins keeps every table exact. */
  lemma JoinKeeps(me: Id, w: World, x: Id, i: Info)
    requires Inv(me, w) && Joinable(me, w.clients, w.serv, x, i)
    ensures i.servptr in w.serv && i.servptr in w.depth && Inv(me, Joined(w, x, i))
  {
    hide ListInv, TreeInv, ListsExact, Added, More, Listed, FromInv, LifeInv;
    JoinFacts(me, w, x, i);
    JoinServ(me, w, x, i);
    JoinTree(me, w, x, i);
    var c' := w.clients[x := i];
    JoinCounts(w.clients, c', w.present, x, i, w.count, false);
    JoinCounts(w.clients, c', w.present, x, i, w.count, true);
    JoinLists(w.clients, c', w.present, x, i, w.lists);
    JoinFrom(me, w, x, i, c');
    JoinLife(me, w, x, i);
  }

  // ------------------------------------------------------------------------------------
  // Clients that have not registered
  // ------------------------------------------------------------------------------------

  /** make_client for a connection of our own; no server is set yet. */
  function Newcomer(x: Id, http: bool): Info {
    Info(Unregistered, true, x, x, false, false, false, false, http, false)
  }

  /** A connection comes in or is made. */
  function Connected(w: World, x: Id, http: bool): World {
    w.(clients := w.clients[x := Newcomer(x, http)], present := w.present + {x}, alive := w.alive + {x},
       depth := w.depth[x := 0], closing := w.closing - {x},
       lists := w.lists.(unknown := [x] + w.lists.unknown), unknown := w.unknown + 1)
  }

  /** add_client_to_list */
  function Greeted(w: World, x: Id): World {
    w.(global := [x] + w.global)
  }

  /** Off unknown_list, and Count.unknown with it. */
  function Recognized(w: World, x: Id): World {
    w.(lists := w.lists.(unknown := Without(w.lists.unknown, x)),
       unknown := w.unknown - if x in w.lists.unknown then 1 else 0)
  }

  /** Off unknown_list without lowering Count.unknown, and freed. */
  function Aborted(w: World, x: Id): World {
    w.(lists := w.lists.(unknown := Without(w.lists.unknown, x),
                         dropped := w.lists.dropped + if x in w.lists.unknown then 1 else 0),
       present := w.present - {x}, alive := w.alive - {x}, exited := w.exited + {x}, freed := w.freed + [x])
  }

  /** A user or server of our own registers; user mode +i was counted when USER set it. */
  function Registered(w: World, x: Id, i: Info): World
    requires i.servptr in w.serv && i.servptr in w.depth
  {
    Booked(Planted(Recognized(w, x), x, i), x, i, i.(invisible := false))
  }

  /** do_local_user: user mode +i is set, and counted whether or not it was set before. */
  function UserSent(w: World, x: Id): World
    requires x in w.clients && Invisi in w.count && Repeats in w.count
  {
    var again := if w.clients[x].invisible then 1 else 0;
    w.(clients := w.clients[x := w.clients[x].(invisible := true)],
       count := w.count[Invisi := w.count[Invisi] + 1][Repeats := w.count[Repeats] + again])
  }

  /** register_remote_user turns away a user whose server is not there or not behind the link it comes from. */
  predicate Refusable(c: Clients, serv: map<Id, Serv>, x: Id, i: Info) {
    && x !in c && i.status.Client? && !i.local
    && (i.servptr in serv ==> i.servptr in c && i.from != c[i.servptr].from)
  }

  /** Such a user is freed again; usercnt of its server, which is set by then, is lowered all the same. */
  function Refused(w: World, x: Id, i: Info): World {
    w.(clients := w.clients[x := i.(killed := true)],
       serv := if i.servptr in w.serv then w.serv[i.servptr := Blamed(w.serv[i.servptr])] else w.serv,
       exited := w.exited + {x}, freed := w.freed + [x])
  }

  function Blamed(v: Serv): Serv {
    v.(usercnt := v.usercnt - 1, refused := v.refused + 1)
  }

  /** `x` has connected and not registered. */
  predicate Waiting(me: Id, w: World, x: Id) {
    x != me && x in w.alive && x !in w.exited && x in w.clients && IsUnregistered(w.clients[x])
  }

  /** The same clients but for `x`, which has not registered; and the same depths. */
  ghost predicate Apart(c: Clients, c': Clients, depth: map<Id, nat>, depth': map<Id, nat>, present: set<Id>, x: Id) {
    && present <= c.Keys && x !in present && x in c' && IsUnregistered(c'[x]) && c'[x].from == x
    && !c'[x].oper && !c'[x].invisible && x in depth' && depth'[x] == 0
    && (forall y :: y in present ==> y in c' && c'[y] == c[y] && (y in depth <==> y in depth'))
    && (forall y :: y in present && y in depth ==> depth'[y] == depth[y])
  }

  lemma ApartTree(me: Id, c: Clients, c': Clients, depth: map<Id, nat>, depth': map<Id, nat>, bound: nat, present: set<Id>, x: Id)
    requires Apart(c, c', depth, depth', present, x) && x != me
    ensures TreeInv(me, c, depth, bound, present) <==> TreeInv(me, c', depth', bound, present + {x})
  {
    if TreeInv(me, c', depth', bound, present + {x}) {
      assert forall y :: y in present ==> y in present + {x};
      assert TreeInv(me, c, depth, bound, present);
    }
  }

  lemma ApartThose(c: Clients, c': Clients, depth: map<Id, nat>, depth': map<Id, nat>, present: set<Id>, x: Id, k: Kind)
    requires Apart(c, c', depth, depth', present, x)
    ensures present + {x} <= c'.Keys && Those(c', present + {x}, k) == Those(c, present, k)
    ensures LocalOpers(c', present + {x}) == LocalOpers(c, present)
  {
  }

  lemma ApartCounts(c: Clients, c': Clients, depth: map<Id, nat>, depth': map<Id, nat>, present: set<Id>, x: Id, count: map<Kind, int>, local: bool)
    requires Apart(c, c', depth, depth', present, x)
    ensures present + {x} <= c'.Keys
    ensures CountInv(c, count, present, local) <==> CountInv(c', count, present + {x}, local)
  {
    hide Those, Matches;
    forall k: Kind | true ensures Those(c', present + {x}, k) == Those(c, present, k) {
      ApartThose(c, c', depth, depth', present, x, k);
    }
  }

  lemma ApartServ(c: Clients, c': Clients, depth: map<Id, nat>, depth': map<Id, nat>, present: set<Id>, x: Id, v: Serv, s: Id)
    requires Apart(c, c', depth, depth', present, x)
    ensures present + {x} <= c'.Keys && (ServExact(c, v, present, s) <==> ServExact(c', v, present + {x}, s))
  {
  }

  lemma ApartLists(c: Clients, c': Clients, depth: map<Id, nat>, depth': map<Id, nat>, present: set<Id>, x: Id, serv: map<Id, Serv>)
    requires Apart(c, c', depth, depth', present, x)
    ensures present + {x} <= c'.Keys && (ListInv(c, serv, present) <==> ListInv(c', serv, present + {x}))
  {
    hide ServExact;
    forall s | s in serv ensures ServExact(c, serv[s], present, s) <==> ServExact(c', serv[s], present + {x}, s) {
      ApartServ(c, c', depth, depth', present, x, serv[s], s);
    }
    if ListInv(c', serv, present + {x}) {
      assert x !in serv;
    }
  }

  lemma ApartFrom(me: Id, c: Clients, c': Clients, depth: map<Id, nat>, depth': map<Id, nat>, bound: nat, present: set<Id>, x: Id)
    requires Apart(c, c', depth, depth', present, x) && x != me && TreeInv(me, c, depth, bound, present)
    ensures present + {x} <= c'.Keys && (FromInv(me, c, present) <==> FromInv(me, c', present + {x}))
  {
    assert forall y :: y in present ==> y in present + {x};
  }

  lemma ConnectedApart(w: World, x: Id, http: bool)
    requires w.present <= w.clients.Keys && x !in w.clients
    ensures var w' := Connected(w, x, http); Apart(w.clients, w'.clients, w.depth, w'.depth, w.present, x)
  {
  }

  lemma FrontSet(x: Id, xs: seq<Id>)
    ensures SetOf([x] + xs) == {x} + SetOf(xs) && (Distinct(xs) && x !in SetOf(xs) ==> Distinct([x] + xs))
  {
    SetOfAppend([x], xs);
    assert SetOf([x]) == {x};
    if Distinct(xs) && x !in SetOf(xs) {
      DistinctFront(x, xs);
    }
  }

  lemma PresentKnown(me: Id, w: World)
    requires Core(me, w)
    ensures me in w.present && w.present <= w.clients.Keys && w.present <= w.depth.Keys
  {
  }

  lemma ConnectedKeeps(me: Id, w: World, x: Id, http: bool)
    requires Inv(me, w) && x !in w.clients
    ensures Inv(me, Connected(w, x, http)) && Waiting(me, Connected(w, x, http), x)
  {
    hide TreeInv, ListInv, CountInv, FromInv, Those, LocalOpers, ListOf, Apart;
    var w' := Connected(w, x, http);
    PresentKnown(me, w);
    FreedKnown(me, w, x);
    ConnectedApart(w, x, http);
    ApartTree(me, w.clients, w'.clients, w.depth, w'.depth, w.bound, w.present, x);
    ApartLists(w.clients, w'.clients, w.depth, w'.depth, w.present, x, w.serv);
    ApartCounts(w.clients, w'.clients, w.depth, w'.depth, w.present, x, w.count, false);
    ApartCounts(w.clients, w'.clients, w.depth, w'.depth, w.present, x, w.count, true);
    ApartFrom(me, w.clients, w'.clients, w.depth, w'.depth, w.bound, w.present, x);
    ApartThose(w.clients, w'.clients, w.depth, w'.depth, w.present, x, Local);
    ApartThose(w.clients, w'.clients, w.depth, w'.depth, w.present, x, MyServer);
    FrontSet(x, w.lists.unknown);
  }

  lemma GreetedKeeps(me: Id, w: World, x: Id)
    requires Inv(me, w) && Waiting(me, w, x) && x !in w.global
    ensures Inv(me, Greeted(w, x))
  {
    hide TreeInv, ListInv, CountInv, FromInv, ListsExact;
    FrontSet(x, w.global);
  }

  lemma RecognizedLists(me: Id, w: World, x: Id)
    requires Inv(me, w) && Waiting(me, w, x)
    ensures var w' := Recognized(w, x);
            && Core(me, w') && FromInv(me, w'.clients, w'.present) && LifeInv(w') && CountInv(w'.clients, w'.count, w'.present, true)
            && w'.unknown == |w'.lists.unknown| + w'.lists.dropped
            && (w.clients[x].httpListener ==> ListsExact(w'.clients, w'.present, w'.lists))
  {
    hide TreeInv, ListInv, CountInv, FromInv, Those, LocalOpers, ListOf, Without;
    WithoutMembers(w.lists.unknown, x);
    WithoutDistinct(w.lists.unknown, x);
  }

  /** httpd takes a client of its own off unknown_list. */
  lemma RecognizedKeeps(me: Id, w: World, x: Id)
    requires Inv(me, w) && Waiting(me, w, x) && w.clients[x].httpListener
    ensures Inv(me, Recognized(w, x))
  {
    hide Core, FromInv, CountInv, LifeInv, ListsExact, Recognized;
    RecognizedLists(me, w, x);
    RecognizedIs(w, x);
  }

  lemma RecognizedIs(w: World, x: Id)
    ensures var w' := Recognized(w, x); w'.present == w.present && w'.clients == w.clients
  {
  }

  /** `x` is there, as if it were a new client that is still to be known. */
  function Unentered(w: World, x: Id): World {
    Recognized(w, x).(clients := w.clients - {x}, present := w.present - {x}, alive := w.alive - {x}, depth := w.depth - {x},
                      global := Without(w.global, x), closing := w.closing - {x},
                      count := if x in w.clients then Less(w.count, w.clients[x], false) else w.count)
  }

  /** What holds of the clients without one that has not registered. */
  lemma LonerGone(me: Id, w: World, x: Id)
    requires Inv(me, w) && Waiting(me, w, x)
    ensures var p := w.present - {x};
            && x in w.present && p <= w.clients.Keys && TreeInv(me, w.clients, w.depth, w.bound, p) && ListInv(w.clients, w.serv, p)
            && CountInv(w.clients, Less(w.count, w.clients[x], false), p, false) && CountInv(w.clients, Less(w.count, w.clients[x], false), p, true)
            && FromInv(me, w.clients, p)
            && Those(w.clients, p, Local) == Those(w.clients, w.present, Local) && Those(w.clients, p, MyServer) == Those(w.clients, w.present, MyServer)
            && LocalOpers(w.clients, p) == LocalOpers(w.clients, w.present)
  {
    hide ListsExact, LifeInv;
    assert x in w.present by { InvFacts(me, w, x); }
    LonerTree(me, w, x);
    LonerCounts(me, w, x);
  }

  lemma LonerTree(me: Id, w: World, x: Id)
    requires Core(me, w) && FromInv(me, w.clients, w.present) && x in w.present && x != me && IsUnregistered(w.clients[x])
    ensures var p := w.present - {x};
            TreeInv(me, w.clients, w.depth, w.bound, p) && ListInv(w.clients, w.serv, p) && FromInv(me, w.clients, p)
  {
    hide CountInv, TreeInv, ListInv, FromInv;
    LonerInTree(me, w.clients, w.depth, w.bound, w.present, x);
    LonerInLists(w.clients, w.serv, w.present, x);
    LonerFrom(me, w.clients, w.present, x);
  }

  lemma LonerInTree(me: Id, c: Clients, depth: map<Id, nat>, bound: nat, present: set<Id>, x: Id)
    requires present <= c.Keys && TreeInv(me, c, depth, bound, present) && x in present && x != me && IsUnregistered(c[x])
    ensures TreeInv(me, c, depth, bound, present - {x})
  {
  }

  lemma LonerInLists(c: Clients, serv: map<Id, Serv>, present: set<Id>, x: Id)
    requires present <= c.Keys && ListInv(c, serv, present) && x in present && IsUnregistered(c[x])
    ensures ListInv(c, serv, present - {x})
  {
    hide ServExact;
    assert x !in serv;
    forall s | s in serv ensures ServExact(c, serv[s], present - {x}, s) {
      LonerInServ(c, serv[s], present, x, s);
    }
  }

  lemma LonerInServ(c: Clients, v: Serv, present: set<Id>, x: Id, s: Id)
    requires present <= c.Keys && ServExact(c, v, present, s) && x in present && IsUnregistered(c[x])
    ensures ServExact(c, v, present - {x}, s)
  {
  }

  lemma LonerFrom(me: Id, c: Clients, present: set<Id>, x: Id)
    requires present <= c.Keys && FromInv(me, c, present)
    ensures FromInv(me, c, present - {x})
  {
  }

  lemma LonerCounts(me: Id, w: World, x: Id)
    requires Core(me, w) && CountInv(w.clients, w.count, w.present, true) && x in w.present && IsUnregistered(w.clients[x])
    ensures var p, count := w.present - {x}, Less(w.count, w.clients[x], false);
            && CountInv(w.clients, count, p, false) && CountInv(w.clients, count, p, true)
            && Those(w.clients, p, Local) == Those(w.clients, w.present, Local) && Those(w.clients, p, MyServer) == Those(w.clients, w.present, MyServer)
            && LocalOpers(w.clients, p) == LocalOpers(w.clients, w.present)
  {
    hide ListInv, TreeInv, Those, Less;
    CountLess(w.clients, w.count, w.present, x, false);
    LessKeeps(w.count, w.clients[x], false);
    forall k: Kind | IsLocalKind(k) ensures Those(w.clients, w.present - {x}, k) == Those(w.clients, w.present, k) {
      LonerUncounted(w, x, k);
    }
  }

  lemma LonerUncounted(w: World, x: Id, k: Kind)
    requires w.present <= w.clients.Keys && x in w.present && IsUnregistered(w.clients[x]) && IsLocalKind(k)
    ensures Those(w.clients, w.present - {x}, k) == Those(w.clients, w.present, k)
  {
  }

  /** Nothing depends on the record of a client that is not present. */
  lemma RestrictedTree(me: Id, c: Clients, depth: map<Id, nat>, serv: map<Id, Serv>, bound: nat, p: set<Id>, x: Id)
    requires x !in p && p <= c.Keys && TreeInv(me, c, depth, bound, p) && ListInv(c, serv, p) && FromInv(me, c, p)
    ensures TreeInv(me, c - {x}, depth - {x}, bound, p) && ListInv(c - {x}, serv, p) && FromInv(me, c - {x}, p)
  {
    hide ServExact;
    var c' := c - {x};
    forall s | s in serv ensures ServExact(c', serv[s], p, s) {
      RestrictedServ(c, serv[s], p, x, s);
    }
  }

  lemma RestrictedServ(c: Clients, v: Serv, p: set<Id>, x: Id, s: Id)
    requires x !in p && p <= c.Keys && ServExact(c, v, p, s)
    ensures ServExact(c - {x}, v, p, s)
  {
  }

  lemma RestrictedThose(c: Clients, p: set<Id>, x: Id)
    requires x !in p && p <= c.Keys
    ensures (forall k: Kind :: Those(c - {x}, p, k) == Those(c, p, k)) && LocalOpers(c - {x}, p) == LocalOpers(c, p)
  {
    forall k: Kind ensures Those(c - {x}, p, k) == Those(c, p, k) {
    }
  }

  lemma UnenteredLife(me: Id, w: World, x: Id)
    requires Inv(me, w) && Waiting(me, w, x)
    ensures var w0 := Unentered(w, x);
            && (w0.present <= w0.clients.Keys ==> LifeInv(w0)) && SetOf(w0.freed) !! w0.alive && SetOf(w0.global) <= w0.alive && Distinct(w0.global)
            && w0.alive <= w0.clients.Keys
            && w0.present <= w0.alive && (forall y :: y in w0.present && y in w0.clients && w0.clients[y].status.Client? ==> y in w0.persons)
  {
    hide TreeInv, ListInv, CountInv, FromInv, ListsExact, Without;
    WithoutSet(w.global, x);
  }

  lemma UnenteredKeeps(me: Id, w: World, x: Id)
    requires Inv(me, w) && Waiting(me, w, x)
    ensures Inv(me, Unentered(w, x))
  {
    hide TreeInv, ListInv, FromInv, Those, LocalOpers, ListOf, Without, LifeInv, IsUnregistered;
    LonerGone(me, w, x);
    UnenteredLife(me, w, x);
    RestrictedTree(me, w.clients, w.depth, w.serv, w.bound, w.present - {x}, x);
    RestrictedThose(w.clients, w.present - {x}, x);
    WithoutMembers(w.lists.unknown, x);
    WithoutDistinct(w.lists.unknown, x);
  }

  /** The order of the global list does not matter. */
  lemma GlobalKeeps(me: Id, w: World, global: seq<Id>)
    requires Inv(me, w) && Distinct(global) && SetOf(global) == SetOf(w.global)
    ensures Inv(me, w.(global := global))
  {
    hide TreeInv, ListInv, CountInv, FromInv, ListsExact;
  }

  /** `x` may register as `i`: a user or server that hangs on us. */
  predicate Registrable(me: Id, w: World, x: Id, i: Info) {
    && Waiting(me, w, x) && !w.clients[x].httpListener && x in w.global
    && InTree(i) && i.local && i.servptr == me && i.from == x && i.invisible == w.clients[x].invisible
  }

  lemma RegisteredCounts(count: map<Kind, int>, before: Info, i: Info)
    requires IsUnregistered(before) && !before.oper && i.invisible == before.invisible
    ensures More(Less(count, before, false), i) == More(count, i.(invisible := false))
  {
  }

  lemma LessNothing(count: map<Kind, int>, i: Info)
    requires IsUnregistered(i) && !i.oper && !i.invisible
    ensures Less(count, i, false) == count
  {
  }

  /** Who has not registered is no operator, and has user mode +i only after being read. */
  lemma UnregisteredModes(me: Id, w: World, x: Id)
    requires Inv(me, w) && Waiting(me, w, x)
    ensures !w.clients[x].oper && (w.clients[x].invisible ==> x in w.global)
  {
    hide TreeInv, ListInv, CountInv, FromInv, ListsExact;
  }

  lemma RegisteredIs(me: Id, w: World, x: Id, i: Info)
    requires Inv(me, w) && Registrable(me, w, x, i)
    ensures me in w.serv && me in w.depth && me in Unentered(w, x).serv && me in Unentered(w, x).depth
    ensures Registered(w, x, i) == Joined(Unentered(w, x), x, i).(global := w.global)
    ensures Joinable(me, Unentered(w, x).clients, Unentered(w, x).serv, x, i)
  {
    hide ListsExact, CountInv, FromInv, LifeInv, Without, Added, More, Listed, Less, Matches;
    InvFacts(me, w, x);
    UnregisteredModes(me, w, x);
    RegisteredCounts(w.count, w.clients[x], i);
    MeIsMe(me, w);
    CoreFacts(me, w, me);
    PresentKnown(me, w);
    UnderPlanted(w, x, i);
  }

  lemma UnderPlanted(w: World, x: Id, i: Info)
    requires x in w.present && x in w.alive && x != i.servptr && i.servptr in w.serv && i.servptr in w.depth
    ensures i.servptr in Unentered(w, x).serv && i.servptr in Unentered(w, x).depth
    ensures var w1, w2 := Planted(Unentered(w, x), x, i), Planted(Recognized(w, x), x, i);
            && w1.clients == w2.clients && w1.present == w2.present && w1.depth == w2.depth && w1.bound == w2.bound
            && w1.serv == w2.serv && w1.alive + {x} == w2.alive && w1.closing - {x} == w2.closing - {x}
  {
    hide Without, Added;
  }

  /** Registration keeps every table exact, and takes the client off unknown_list and its count. */
  lemma RegisteredKeeps(me: Id, w: World, x: Id, i: Info)
    requires Inv(me, w) && Registrable(me, w, x, i)
    ensures me in w.serv && me in w.depth && Inv(me, Registered(w, x, i))
    ensures x !in Registered(w, x, i).lists.unknown
    ensures x in w.lists.unknown && Registered(w, x, i).unknown == w.unknown - 1 && |Registered(w, x, i).lists.unknown| == |w.lists.unknown| - 1
  {
    hide Inv, Joinable, Joined, Without, Unentered;
    RegisteredIs(me, w, x, i);
    UnenteredKeeps(me, w, x);
    var w0 := Unentered(w, x);
    JoinKeeps(me, w0, x, i);
    JoinedGlobal(w0, x, i);
    WithoutFront(me, w, x);
    GlobalKeeps(me, Joined(w0, x, i), w.global);
    RegisteredUnknown(me, w, x, i);
  }

  lemma JoinedGlobal(w: World, x: Id, i: Info)
    requires i.servptr in w.serv && i.servptr in w.depth
    ensures Joined(w, x, i).global == [x] + w.global
  {
  }

  lemma WithoutFront(me: Id, w: World, x: Id)
    requires Inv(me, w) && x in w.global
    ensures Distinct(w.global) && SetOf([x] + Unentered(w, x).global) == SetOf(w.global)
  {
    hide TreeInv, ListInv, CountInv, FromInv, LocalInv, LifeInv, Without;
    WithoutSet(w.global, x);
    FrontSet(x, Without(w.global, x));
    assert x in SetOf(w.global);
  }

  lemma RegisteredUnknown(me: Id, w: World, x: Id, i: Info)
    requires Inv(me, w) && Registrable(me, w, x, i) && me in w.serv && me in w.depth
    ensures var w' := Registered(w, x, i);
            && x in w.lists.unknown && w'.unknown == w.unknown - 1 && w'.lists.unknown == Without(w.lists.unknown, x)
            && |w'.lists.unknown| == |w.lists.unknown| - 1 && x !in w'.lists.unknown
  {
    hide TreeInv, ListInv, CountInv, FromInv, LifeInv, Without, Added, More;
    InvFacts(me, w, x);
    WithoutMembers(w.lists.unknown, x);
    WithoutDistinct(w.lists.unknown, x);
  }

  lemma AbortedKeeps(me: Id, w: World, x: Id)
    requires Inv(me, w) && Waiting(me, w, x) && x !in w.global
    ensures Inv(me, Aborted(w, x))
  {
    hide TreeInv, ListInv, CountInv, FromInv, Those, LocalOpers, ListOf, Without;
    LonerGone(me, w, x);
    UnregisteredModes(me, w, x);
    LessNothing(w.count, w.clients[x]);
    WithoutMembers(w.lists.unknown, x);
    WithoutDistinct(w.lists.unknown, x);
    SetOfLast(w.freed, x);
  }

  /** Only the user mode +i of `x` differs. */
  ghost predicate Remoded(c: Clients, c': Clients, x: Id) {
    x in c && c' == c[x := c[x].(invisible := true)]
  }

  lemma RemodedTree(me: Id, c: Clients, c': Clients, depth: map<Id, nat>, bound: nat, present: set<Id>, x: Id)
    requires Remoded(c, c', x) && TreeInv(me, c, depth, bound, present)
    ensures TreeInv(me, c', depth, bound, present)
  {
  }

  lemma RemodedLists(c: Clients, c': Clients, serv: map<Id, Serv>, present: set<Id>, x: Id)
    requires Remoded(c, c', x) && present <= c.Keys && ListInv(c, serv, present)
    ensures present <= c'.Keys && ListInv(c', serv, present)
  {
    hide ServExact;
    forall s | s in serv ensures ServExact(c', serv[s], present, s) {
      RemodedServ(c, c', serv[s], present, x, s);
    }
  }

  lemma RemodedServ(c: Clients, c': Clients, v: Serv, present: set<Id>, x: Id, s: Id)
    requires Remoded(c, c', x) && present <= c.Keys && ServExact(c, v, present, s)
    ensures present <= c'.Keys && ServExact(c', v, present, s)
  {
  }

  lemma RemodedThose(c: Clients, c': Clients, present: set<Id>, x: Id, k: Kind)
    requires Remoded(c, c', x) && present <= c.Keys && x in present
    ensures present <= c'.Keys
    ensures k != Invisi ==> Those(c', present, k) == Those(c, present, k)
    ensures Those(c', present, Invisi) == Those(c, present, Invisi) + {x} && (x in Those(c, present, Invisi) <==> c[x].invisible)
  {
  }

  lemma RemodedCounts(w: World, x: Id, local: bool)
    requires w.present <= w.clients.Keys && x in w.present && CountInv(w.clients, w.count, w.present, local)
    ensures var w' := UserSent(w, x); w'.present <= w'.clients.Keys && CountInv(w'.clients, w'.count, w'.present, local)
  {
    hide Those;
    var w' := UserSent(w, x);
    forall k: Kind | true ensures k != Invisi ==> Those(w'.clients, w.present, k) == Those(w.clients, w.present, k) {
      RemodedThose(w.clients, w'.clients, w.present, x, k);
    }
    RemodedThose(w.clients, w'.clients, w.present, x, Invisi);
    var seen := Those(w.clients, w.present, Invisi);
    assert if x in seen then seen + {x} == seen else |seen + {x}| == |seen| + 1;
  }

  lemma RemodedLocal(me: Id, w: World, x: Id)
    requires Inv(me, w) && Waiting(me, w, x) && x in w.global && x in w.present
    ensures Invisi in w.count && Repeats in w.count
    ensures var w' := UserSent(w, x);
            && w'.present <= w'.clients.Keys && ListsExact(w'.clients, w'.present, w'.lists) && FromInv(me, w'.clients, w'.present) && LifeInv(w')
  {
    hide TreeInv, ListInv, CountInv, Those, ListOf, LifeInv, LocalOpers;
    InvFacts(me, w, x);
    var c' := UserSent(w, x).clients;
    RemodedThose(w.clients, c', w.present, x, Local);
    RemodedThose(w.clients, c', w.present, x, MyServer);
    RemodedOpers(w.clients, c', w.present, x);
    RemodedLife(me, w, x);
  }

  lemma RemodedOpers(c: Clients, c': Clients, present: set<Id>, x: Id)
    requires x in c && c' == c[x := c[x].(invisible := true)] && present <= c.Keys
    ensures LocalOpers(c', present) == LocalOpers(c, present)
  {
  }

  lemma RemodedLife(me: Id, w: World, x: Id)
    requires Inv(me, w) && Waiting(me, w, x) && x in w.global && x in w.present
    ensures Invisi in w.count && Repeats in w.count && LifeInv(UserSent(w, x))
  {
    hide TreeInv, ListInv, CountInv, ListsExact, FromInv;
    InvFacts(me, w, x);
  }

  /** USER, at any time before registration and as often as it comes, keeps every table exact. */
  lemma UserSentKeeps(me: Id, w: World, x: Id)
    requires Inv(me, w) && Waiting(me, w, x) && x in w.global
    ensures Invisi in w.count && Repeats in w.count && Inv(me, UserSent(w, x)) && Waiting(me, UserSent(w, x), x)
  {
    hide TreeInv, ListInv, CountInv, FromInv, ListsExact, LifeInv;
    InvFacts(me, w, x);
    var w' := UserSent(w, x);
    RemodedTree(me, w.clients, w'.clients, w.depth, w.bound, w.present, x);
    RemodedLists(w.clients, w'.clients, w.serv, w.present, x);
    RemodedCounts(w, x, false);
    RemodedCounts(w, x, true);
    RemodedLocal(me, w, x);
  }

  lemma UnknownTree(me: Id, c: Clients, depth: map<Id, nat>, bound: nat, present: set<Id>, x: Id, i: Info)
    requires present <= c.Keys && x !in present && TreeInv(me, c, depth, bound, present)
    ensures TreeInv(me, c[x := i], depth, bound, present)
  {
  }

  lemma UnknownFrom(me: Id, c: Clients, depth: map<Id, nat>, bound: nat, present: set<Id>, x: Id, i: Info)
    requires present <= c.Keys && x !in present && TreeInv(me, c, depth, bound, present) && FromInv(me, c, present)
    ensures present <= c[x := i].Keys && FromInv(me, c[x := i], present)
  {
  }

  lemma UnknownCounts(c: Clients, count: map<Kind, int>, present: set<Id>, l: Lists, x: Id, i: Info)
    requires present <= c.Keys && x !in present && ListsExact(c, present, l)
    requires CountInv(c, count, present, false) && CountInv(c, count, present, true)
    ensures present <= c[x := i].Keys && ListsExact(c[x := i], present, l)
    ensures CountInv(c[x := i], count, present, false) && CountInv(c[x := i], count, present, true)
  {
    hide ListOf;
    forall k: Kind ensures Those(c[x := i], present, k) == Those(c, present, k) {
    }
    assert LocalOpers(c[x := i], present) == LocalOpers(c, present);
  }

  /** Nothing depends on the record of a client that is not present. */
  lemma RefusedTables(me: Id, w: World, x: Id, i: Info)
    requires Inv(me, w) && x !in w.clients && x !in w.present
    ensures var c' := Refused(w, x, i).clients;
            && w.present <= c'.Keys && TreeInv(me, c', w.depth, w.bound, w.present) && FromInv(me, c', w.present)
            && CountInv(c', w.count, w.present, false) && CountInv(c', w.count, w.present, true) && ListsExact(c', w.present, w.lists)
  {
    hide TreeInv, ListInv, CountInv, FromInv, ListsExact, LifeInv;
    UnknownTree(me, w.clients, w.depth, w.bound, w.present, x, i.(killed := true));
    UnknownFrom(me, w.clients, w.depth, w.bound, w.present, x, i.(killed := true));
    UnknownCounts(w.clients, w.count, w.present, w.lists, x, i.(killed := true));
  }

  lemma RefusedServ(c: Clients, v: Serv, present: set<Id>, x: Id, i: Info, s: Id)
    requires present <= c.Keys && x !in present && ServExact(c, v, present, s)
    ensures ServExact(c[x := i], v, present, s) && ServExact(c[x := i], Blamed(v), present, s)
  {
  }

  lemma RefusedLists(me: Id, w: World, x: Id, i: Info)
    requires w.present <= w.clients.Keys && ListInv(w.clients, w.serv, w.present) && x !in w.present
    ensures var w' := Refused(w, x, i); ListInv(w'.clients, w'.serv, w'.present)
  {
    hide ServExact;
    var w' := Refused(w, x, i);
    forall s | s in w.serv ensures ServExact(w'.clients, w'.serv[s], w.present, s) {
      RefusedServ(w.clients, w.serv[s], w.present, x, i.(killed := true), s);
    }
  }

  /** A refused introduction keeps every table exact, but for one usercnt that falls behind by one more. */
  lemma RefusedKeeps(me: Id, w: World, x: Id, i: Info)
    requires Inv(me, w) && Refusable(w.clients, w.serv, x, i)
    ensures Inv(me, Refused(w, x, i))
  {
    hide TreeInv, ListInv, CountInv, FromInv, ListsExact;
    PresentKnown(me, w);
    FreedKnown(me, w, x);
    RefusedTables(me, w, x, i);
    RefusedLists(me, w, x, i);
    SetOfLast(w.freed, x);
  }

  /** The step takes a client off unknown_list without lowering Count.unknown. */
  ghost predicate Drops(me: Id, w: World, s: Step) {
    s.Abort? && Waiting(me, w, s.x) && s.x !in w.global && s.x in w.lists.unknown
  }

  /** The step raises Count.invisi for a client that is counted there already. */
  ghost predicate Repeated(me: Id, w: World, s: Step) {
    s.User? && Waiting(me, w, s.x) && s.x in w.global && !w.clients[s.x].httpListener && w.clients[s.x].invisible
  }

  /** The step lowers usercnt of the server `t` for a user that was never on its list. */
  ghost predicate Refuses(w: World, s: Step, t: Id) {
    s.Introduce? && Refusable(w.clients, w.serv, s.x, s.info) && s.info.servptr == t && t in w.serv
  }

  /** Registered clients stay what they are. */
  ghost predicate Settles(c: Clients, c': Clients) {
    forall y :: y in c ==> y in c' && (!IsUnregistered(c[y]) ==> c'[y] == c[y])
  }

  /** What a step does to the three drifts; a server that is new has none. */
  ghost predicate Drifts(me: Id, w: World, s: Step, w': World)
  {
    && w'.lists.dropped == w.lists.dropped + (if Drops(me, w, s) then 1 else 0)
    && Repeats in w.count && Repeats in w'.count && w'.count[Repeats] == w.count[Repeats] + (if Repeated(me, w, s) then 1 else 0)
    && (forall t :: t in w'.serv && t in w.serv ==> w'.serv[t].refused == w.serv[t].refused + if Refuses(w, s, t) then 1 else 0)
    && (forall t :: t in w'.serv && t !in w.serv ==> w'.serv[t].refused == 0 && (t in w.clients ==> IsUnregistered(w.clients[t])))
    && Settles(w.clients, w'.clients)
  }

  /**
   What a step makes of the clients; the tables then follow from the invariant. Those that cannot
   happen change nothing.
   */
  ghost predicate Happens(me: Id, w: World, s: Step, w': World) {
    match s {
      case Connect(x, http) =>
        if x in w.clients then w' == w
        else && w'.clients == w.clients[x := Info(Unregistered, true, x, x, false, false, false, false, http, false)]
             && w'.present == w.present + {x} && x in w'.lists.unknown && Unheard(w, w')
      case Greet(x) =>
        if !Waiting(me, w, x) || x in w.global then w' == w
        else w'.clients == w.clients && w'.present == w.present && w'.global == [x] + w.global && w'.sent == w.sent && w'.freed == w.freed
      case Serve(x) =>
        if !Waiting(me, w, x) || !w.clients[x].httpListener then w' == w
        else w'.clients == w.clients && w'.present == w.present && x !in w'.lists.unknown && Unheard(w, w')
      case Abort(x) =>
        if !Waiting(me, w, x) || x in w.global then w' == w
        else w'.clients == w.clients && w'.present == w.present - {x} && w'.freed == w.freed + [x] && w'.sent == w.sent
      case User(x) =>
        if !Waiting(me, w, x) || x !in w.global || w.clients[x].httpListener then w' == w
        else && w'.clients == w.clients[x := w.clients[x].(invisible := true)] && w'.present == w.present && Unheard(w, w')
             && Invisi in w.count && Invisi in w'.count && w'.count[Invisi] == w.count[Invisi] + 1
      case Register(x, i) =>
        if !Registrable(me, w, x, i) then w' == w
        else w'.clients == w.clients[x := i] && w'.present == w.present + {x} && x !in w'.lists.unknown && Unheard(w, w')
      case Introduce(x, i) =>
        if Joinable(me, w.clients, w.serv, x, i) && !i.local then
          && w'.clients == w.clients[x := i] && w'.present == w.present + {x} && w'.global == [x] + w.global
          && w'.sent == w.sent && w'.freed == w.freed
        else if Refusable(w.clients, w.serv, x, i) then
          x in w'.clients && w'.present == w.present && w'.freed == w.freed + [x] && w'.sent == w.sent
        else w' == w
      case Exit(x, source) =>
        if x !in w.alive || x == me || x in w.exited + w.closing || x !in w.clients || w.clients[x].httpClient then w' == w
        else if w.clients[x].local && w.clients[x].httpListener then w' == w.(closing := w.closing + {x})
        else exists gone :: ClientExits(me, w, w', x, source, gone)
      case Reclaim =>
        && w'.clients == w.clients && w'.present == w.present && w'.lists == w.lists.(exits := [])
        && w'.freed == w.freed + Reverse(w.lists.exits) && w'.sent == w.sent
    }
  }

  /** Nothing is sent, freed or introduced. */
  ghost predicate Unheard(w: World, w': World) {
    w'.sent == w.sent && w'.freed == w.freed && w'.global == w.global
  }

  lemma ConnectHappens(me: Id, w: World, x: Id, http: bool, w': World)
    requires w' == if x !in w.clients then Connected(w, x, http) else w
    ensures Happens(me, w, Connect(x, http), w')
  {
  }

  lemma GreetHappens(me: Id, w: World, x: Id, w': World)
    requires w' == if Waiting(me, w, x) && x !in w.global then Greeted(w, x) else w
    ensures Happens(me, w, Greet(x), w')
  {
  }

  lemma ServeHappens(me: Id, w: World, x: Id, w': World)
    requires w' == if Waiting(me, w, x) && w.clients[x].httpListener then Recognized(w, x) else w
    ensures Happens(me, w, Serve(x), w')
  {
    WithoutMembers(w.lists.unknown, x);
  }

  lemma AbortHappens(me: Id, w: World, x: Id, w': World)
    requires w' == if Waiting(me, w, x) && x !in w.global then Aborted(w, x) else w
    ensures Happens(me, w, Abort(x), w')
  {
  }

  lemma UserHappens(me: Id, w: World, x: Id, w': World)
    requires Invisi in w.count && Repeats in w.count
    requires w' == if Waiting(me, w, x) && x in w.global && !w.clients[x].httpListener then UserSent(w, x) else w
    ensures Happens(me, w, User(x), w')
  {
  }

  lemma RegisterHappens(me: Id, w: World, x: Id, i: Info, w': World)
    requires Registrable(me, w, x, i) ==> i.servptr in w.serv && i.servptr in w.depth
    requires w' == if Registrable(me, w, x, i) then Registered(w, x, i) else w
    ensures Happens(me, w, Register(x, i), w')
  {
    hide Added, More, Registrable;
    WithoutMembers(w.lists.unknown, x);
  }

  lemma IntroduceHappens(me: Id, w: World, x: Id, i: Info, w': World)
    requires Joinable(me, w.clients, w.serv, x, i) && !i.local ==> i.servptr in w.serv && i.servptr in w.depth
    requires w' == if Joinable(me, w.clients, w.serv, x, i) && !i.local then Joined(w, x, i)
                   else if Refusable(w.clients, w.serv, x, i) then Refused(w, x, i) else w
    ensures Happens(me, w, Introduce(x, i), w')
  {
    hide Added, More, Listed, Joinable, Refusable;
  }

  lemma ReclaimHappens(me: Id, w: World, w': World)
    requires w'.clients == w.clients && w'.present == w.present && w'.lists == w.lists.(exits := [])
    requires w'.freed == w.freed + Reverse(w.lists.exits) && w'.sent == w.sent
    ensures Happens(me, w, Reclaim, w')
  {
  }

  lemma ExitHappens(me: Id, w: World, x: Id, source: Id, w': World, gone: seq<Id>)
    requires x in w.alive ==> x in w.clients
    requires x !in w.alive || x == me || x in w.exited + w.closing || w.clients[x].httpClient ==> w' == w
    requires x in w.alive && !(x == me || x in w.exited + w.closing || w.clients[x].httpClient) ==>
               if w.clients[x].local && w.clients[x].httpListener then w' == w.(closing := w.closing + {x})
               else ClientExits(me, w, w', x, source, gone)
    ensures Happens(me, w, Exit(x, source), w')
  {
    hide ClientExits;
  }

  /** No count drifts. */
  ghost predicate NoneDrifts(w: World, w': World) {
    && w'.lists.dropped == w.lists.dropped && SameRefusals(w.serv, w'.serv)
    && Repeats in w.count && Repeats in w'.count && w'.count[Repeats] == w.count[Repeats]
  }

  /** Nothing that Count.invisi, Count.unknown and usercnt were wrong about yet. */
  ghost predicate NoDrift(w: World) {
    w.lists.dropped == 0 && Repeats in w.count && w.count[Repeats] == 0 && forall t :: t in w.serv ==> w.serv[t].refused == 0
  }

  lemma SameDrifts(me: Id, w: World, s: Step, w': World)
    requires NoneDrifts(w, w') && Settles(w.clients, w'.clients)
    requires !Drops(me, w, s) && !Repeated(me, w, s) && forall t :: !Refuses(w, s, t)
    ensures Drifts(me, w, s, w')
  {
  }

  lemma JoinedDrifts(me: Id, w: World, x: Id, i: Info)
    requires Inv(me, w) && Joinable(me, w.clients, w.serv, x, i)
    ensures i.servptr in w.serv && i.servptr in w.depth && Drifts(me, w, Introduce(x, i), Joined(w, x, i))
  {
    hide TreeInv, ListInv, FromInv, ListsExact, LifeInv;
    JoinFacts(me, w, x, i);
    CountKinds(w.clients, w.count, w.present);
    MoreKeeps(w.count, i);
  }

  lemma PlantedRefusals(w: World, x: Id, i: Info)
    requires i.servptr in w.serv && i.servptr in w.depth && x !in w.serv
    ensures var serv' := Planted(w, x, i).serv;
            && (forall t :: t in w.serv ==> t in serv' && serv'[t].refused == w.serv[t].refused)
            && (forall t :: t in serv' && t !in w.serv ==> t == x && serv'[t].refused == 0)
  {
  }

  lemma RegisteredDrifts(me: Id, w: World, x: Id, i: Info)
    requires Inv(me, w) && Registrable(me, w, x, i) && me in w.serv && me in w.depth
    ensures Drifts(me, w, Register(x, i), Registered(w, x, i))
  {
    hide TreeInv, FromInv, ListsExact, ListInv, CountInv, Planted, Recognized, More, Listed;
    AllKinds(me, w);
    MoreKeeps(w.count, i.(invisible := false));
    InvFacts(me, w, x);
    CoreFacts(me, w, x);
    RecognizedTables(w, x);
    PlantedRefusals(Recognized(w, x), x, i);
    RegisteredDropped(w, x, i);
    RegisteredTables(w, x, i);
  }

  lemma RegisteredTables(w: World, x: Id, i: Info)
    requires i.servptr in w.serv && i.servptr in w.depth
    ensures Registered(w, x, i).serv == Planted(Recognized(w, x), x, i).serv && Registered(w, x, i).clients == w.clients[x := i]
    ensures Registered(w, x, i).count == More(w.count, i.(invisible := false))
  {
  }

  lemma RefusedDrifts(me: Id, w: World, x: Id, i: Info)
    requires Inv(me, w) && Refusable(w.clients, w.serv, x, i)
    ensures Drifts(me, w, Introduce(x, i), Refused(w, x, i))
  {
    hide TreeInv, ListInv, FromInv, ListsExact, LifeInv;
    CountKinds(w.clients, w.count, w.present);
  }

  /**
   When each count is right: Count.invisi as long as no USER was repeated, usercnt of a server as
   long as no introduction to it was refused. All others always are.
   */
  lemma CountsExactIff(me: Id, w: World)
    requires Inv(me, w)
    ensures Repeats in w.count && Invisi in w.count && w.count[Invisi] >= |Those(w.clients, w.present, Invisi)|
    ensures w.count[Invisi] == |Those(w.clients, w.present, Invisi)| <==> w.count[Repeats] == 0
    ensures forall k: Kind :: k != Repeats && k != Invisi ==> k in w.count && w.count[k] == |Those(w.clients, w.present, k)|
    ensures forall t :: t in w.serv ==> (w.serv[t].usercnt == |w.serv[t].users| <==> w.serv[t].refused == 0)
    ensures forall t :: t in w.serv ==> w.serv[t].usercnt <= |w.serv[t].users| && w.serv[t].servercnt == |w.serv[t].servers|
  {
    hide TreeInv, FromInv, ListsExact, LifeInv, Those;
    forall t | t in w.serv ensures ServExact(w.clients, w.serv[t], w.present, t) {
    }
  }

  /** What the counters count: each is the size of the set of those clients. */
  lemma CountersAre(me: Id, w: World, those: set<Id>)
    requires Inv(me, w)
    ensures w.present <= w.clients.Keys && forall k: Kind :: k in w.count
    ensures (forall x :: x in those <==> x in w.present && w.clients[x].status.Client?) ==> w.count[Total] == |those|
    ensures (forall x :: x in those <==> x in w.present && w.clients[x].oper) ==> w.count[Oper] == |those|
    ensures (forall x :: x in those <==> x in w.present && w.clients[x].invisible) ==> w.count[Invisi] == |those| + w.count[Repeats]
    ensures (forall x :: x in those <==> x in w.present && w.clients[x].status.Server?) ==> w.count[Servers] == |those|
    ensures (forall x :: x in those <==> x in w.present && w.clients[x].status.Service?) ==> w.count[Services] == |those|
  {
    hide Inv;
    CountsExactIff(me, w);
    InvisiCount(me, w);
    forall k: Kind ensures (forall x :: x in those <==> x in w.present && Matches(k, w.clients[x])) ==> those == Those(w.clients, w.present, k) {
    }
  }

  /** And those of the clients that are linked directly, with the lists of these. */
  lemma LocalCountersAre(me: Id, w: World, those: set<Id>)
    requires Inv(me, w)
    ensures w.present <= w.clients.Keys && forall k: Kind :: k in w.count
    ensures (forall x :: x in those <==> x in w.present && w.clients[x].local && w.clients[x].status.Client?) ==> w.count[Local] == |those| == |w.lists.lclients|
    ensures (forall x :: x in those <==> x in w.present && w.clients[x].local && w.clients[x].status.Server?) ==> w.count[MyServer] == |those| == |w.lists.servs|
    ensures (forall x :: x in those <==> x in w.present && w.clients[x].local && w.clients[x].status.Server? && w.clients[x].uline) ==> w.count[MyUlined] == |those|
    ensures (forall x :: x in those <==> x in w.present && w.clients[x].local && w.clients[x].status.Service?) ==> w.count[MyService] == |those|
  {
    hide Inv, Those, Matches;
    CountsExactIff(me, w);
    ListSizes(me, w);
    LocalThose(w, those);
  }

  lemma LocalThose(w: World, those: set<Id>)
    requires w.present <= w.clients.Keys
    ensures (forall x :: x in those <==> x in w.present && w.clients[x].local && w.clients[x].status.Client?) ==> those == Those(w.clients, w.present, Local)
    ensures (forall x :: x in those <==> x in w.present && w.clients[x].local && w.clients[x].status.Server?) ==> those == Those(w.clients, w.present, MyServer)
    ensures (forall x :: x in those <==> x in w.present && w.clients[x].local && w.clients[x].status.Server? && w.clients[x].uline) ==> those == Those(w.clients, w.present, MyUlined)
    ensures (forall x :: x in those <==> x in w.present && w.clients[x].local && w.clients[x].status.Service?) ==> those == Those(w.clients, w.present, MyService)
  {
  }

  lemma LocalListsAre(me: Id, w: World)
    requires Inv(me, w)
    ensures w.present <= w.clients.Keys
    ensures forall x :: x in w.lists.lclients <==> x in w.present && w.clients[x].local && w.clients[x].status.Client?
    ensures forall x :: x in w.lists.servs <==> x in w.present && w.clients[x].local && w.clients[x].status.Server?
    ensures forall x :: x in w.lists.locopers <==> x in w.present && w.clients[x].local && w.clients[x].status.Client? && w.clients[x].oper
  {
    hide Inv;
    ListSizes(me, w);
  }

  lemma InvisiCount(me: Id, w: World)
    requires Inv(me, w)
    ensures w.present <= w.clients.Keys && (forall k: Kind :: k in w.count)
    ensures w.count[Invisi] == |Those(w.clients, w.present, Invisi)| + w.count[Repeats]
  {
    hide TreeInv, ListInv, FromInv, LocalInv, LifeInv, Those;
  }

  lemma ListSizes(me: Id, w: World)
    requires Inv(me, w)
    ensures w.present <= w.clients.Keys && (forall k: Kind :: k in w.count)
    ensures |w.lists.lclients| == |Those(w.clients, w.present, Local)| && |w.lists.servs| == |Those(w.clients, w.present, MyServer)|
    ensures forall x :: x in w.lists.lclients <==> x in Those(w.clients, w.present, Local)
    ensures forall x :: x in w.lists.servs <==> x in Those(w.clients, w.present, MyServer)
    ensures forall x :: x in w.lists.locopers <==> x in Those(w.clients, w.present, Local) && w.clients[x].oper
  {
    hide TreeInv, ListInv, FromInv, LifeInv, Those;
    DistinctSize(w.lists.lclients);
    DistinctSize(w.lists.servs);
    assert forall x :: x in w.lists.lclients <==> x in SetOf(w.lists.lclients);
    assert forall x :: x in w.lists.servs <==> x in SetOf(w.lists.servs);
    assert forall x :: x in w.lists.locopers <==> x in SetOf(w.lists.locopers);
  }

  /** The drifts of a run so far are those of its steps, one by one. */
  ghost predicate DriftsSoFar(me: Id, worlds: seq<World>, steps: seq<Step>, i: nat)
    requires i <= |steps| && |worlds| == i + 1
  {
    var w := worlds[i];
    && (w.lists.dropped == 0 <==> forall k :: 0 <= k < i ==> !Drops(me, worlds[k], steps[k]))
    && Repeats in w.count && (w.count[Repeats] == 0 <==> forall k :: 0 <= k < i ==> !Repeated(me, worlds[k], steps[k]))
    && (forall t :: t in w.serv ==> (w.serv[t].refused == 0 <==> forall k :: 0 <= k < i ==> !Refuses(worlds[k], steps[k], t)))
    && (forall k, t :: 0 <= k <= i && t in worlds[k].serv ==> t in w.clients && !IsUnregistered(w.clients[t]))
  }

  lemma ServersRegistered(me: Id, w: World)
    requires Inv(me, w)
    ensures forall t :: t in w.serv ==> t in w.clients && !IsUnregistered(w.clients[t])
  {
    hide TreeInv, CountInv, FromInv, ListsExact, LifeInv;
  }

  lemma DriftsOn(me: Id, worlds: seq<World>, steps: seq<Step>, i: nat, w': World)
    requires i < |steps| && |worlds| == i + 1 && DriftsSoFar(me, worlds, steps, i)
    requires Inv(me, worlds[i]) && Inv(me, w') && Drifts(me, worlds[i], steps[i], w')
    ensures DriftsSoFar(me, worlds + [w'], steps, i + 1)
  {
    hide Inv, Drops, Repeated, IsUnregistered;
    var all := worlds + [w'];
    ServersRegistered(me, w');
    assert all[i + 1] == w' && forall k :: 0 <= k <= i ==> all[k] == worlds[k];
    NotNegative(me, worlds[i]);
    forall t | t in w'.serv ensures w'.serv[t].refused == 0 <==> forall k :: 0 <= k < i + 1 ==> !Refuses(all[k], steps[k], t) {
      if t !in worlds[i].serv {
        assert forall k :: 0 <= k < i + 1 ==> t !in worlds[k].serv;
      }
    }
  }

  lemma NotNegative(me: Id, w: World)
    requires Inv(me, w)
    ensures Repeats in w.count && w.count[Repeats] >= 0
  {
    hide TreeInv, ListInv, FromInv, ListsExact, LifeInv;
  }

  lemma DriftsStart(me: Id, w: World, steps: seq<Step>)
    requires Inv(me, w) && NoDrift(w)
    ensures DriftsSoFar(me, [w], steps, 0)
  {
    hide Inv;
    ServersRegistered(me, w);
  }

  lemma DriftsEnd(me: Id, worlds: seq<World>, steps: seq<Step>, w: World)
    requires |worlds| == |steps| + 1 && w == worlds[|steps|] && Inv(me, w) && DriftsSoFar(me, worlds, steps, |steps|)
    ensures w.unknown == |w.lists.unknown| <==> forall k :: 0 <= k < |steps| ==> !Drops(me, worlds[k], steps[k])
    ensures w.present <= w.clients.Keys && Invisi in w.count
    ensures w.count[Invisi] == |Those(w.clients, w.present, Invisi)| <==> forall k :: 0 <= k < |steps| ==> !Repeated(me, worlds[k], steps[k])
    ensures forall t :: t in w.serv ==>
              (w.serv[t].usercnt == |w.serv[t].users| <==> forall k :: 0 <= k < |steps| ==> !Refuses(worlds[k], steps[k], t))
    ensures forall k: Kind :: k != Invisi && k != Repeats ==> k in w.count && w.count[k] == |Those(w.clients, w.present, k)|
  {
    hide Inv, Drops, Repeated, Refuses, Those;
    UnknownExactIff(me, w);
    CountsExactIff(me, w);
    PresentOf(me, w);
  }

  lemma PresentOf(me: Id, w: World)
    requires Inv(me, w)
    ensures w.present <= w.clients.Keys
  {
  }

  lemma AllKinds(me: Id, w: World)
    requires Inv(me, w)
    ensures forall k: Kind :: k in w.count
  {
  }

  lemma Unmoved(me: Id, w: World)
    requires Inv(me, w)
    ensures NoneDrifts(w, w) && Settles(w.clients, w.clients)
  {
    AllKinds(me, w);
  }

  lemma ConnectedDrifts(w: World, x: Id, http: bool)
    requires x !in w.clients && Repeats in w.count
    ensures NoneDrifts(w, Connected(w, x, http)) && Settles(w.clients, Connected(w, x, http).clients)
  {
  }

  lemma GreetedDrifts(w: World, x: Id)
    requires Repeats in w.count
    ensures NoneDrifts(w, Greeted(w, x)) && Settles(w.clients, Greeted(w, x).clients)
  {
  }

  lemma RecognizedDrifts(w: World, x: Id)
    requires Repeats in w.count
    ensures NoneDrifts(w, Recognized(w, x)) && Settles(w.clients, Recognized(w, x).clients)
  {
  }

  lemma AbortedDrifts(me: Id, w: World, s: Step, w': World)
    requires Inv(me, w) && s.Abort?
    requires w' == if Waiting(me, w, s.x) && s.x !in w.global then Aborted(w, s.x) else w
    ensures Drifts(me, w, s, w')
  {
    hide Inv;
    AllKinds(me, w);
  }

  lemma UserDrifts(me: Id, w: World, s: Step, w': World)
    requires Inv(me, w) && s.User? && (s.x in w.clients ==> Invisi in w.count && Repeats in w.count)
    requires w' == if Waiting(me, w, s.x) && s.x in w.global && !w.clients[s.x].httpListener then UserSent(w, s.x) else w
    ensures Drifts(me, w, s, w')
  {
    hide Inv;
    AllKinds(me, w);
  }

  lemma ExitedClients(me: Id, w: World, w': World, x: Id, source: Id, gone: seq<Id>)
    requires x in w.clients
    requires Exitable(me, w, x) ==> ClientExits(me, w, w', x, source, gone)
    requires !Exitable(me, w, x) ==> w'.clients == w.clients
    ensures Settles(w.clients, w'.clients)
  {
  }

  /** Count.unknown is the length of unknown_list exactly as long as nothing was dropped. */
  lemma UnknownExactIff(me: Id, w: World)
    requires Inv(me, w)
    ensures w.unknown >= |w.lists.unknown| && (w.unknown == |w.lists.unknown| <==> w.lists.dropped == 0)
    ensures forall x :: x in w.lists.unknown ==> Waiting(me, w, x)
    ensures forall x :: Waiting(me, w, x) && !w.clients[x].httpListener ==> x in w.lists.unknown
  {
    hide ListInv, CountInv, FromInv, ListOf;
  }

  /** One failed SSL setup is enough for a count of one with nobody on the list, on a server that was alone. */
  lemma UnknownCanDrift(me: Id, w: World, x: Id)
    requires Inv(me, w) && w.lists.unknown == [] && w.lists.dropped == 0 && x !in w.clients
    ensures var w1 := Connected(w, x, false);
            && Inv(me, w1) && Drops(me, w1, Abort(x))
            && Inv(me, Aborted(w1, x)) && Aborted(w1, x).unknown == 1 && Aborted(w1, x).lists.unknown == []
  {
    hide TreeInv, ListInv, CountInv, FromInv, Connected, Aborted;
    ConnectedKeeps(me, w, x, false);
    ConnectedIs(me, w, x);
    AbortedKeeps(me, Connected(w, x, false), x);
    AbortedIs(Connected(w, x, false), x);
  }

  lemma ConnectedIs(me: Id, w: World, x: Id)
    requires Inv(me, w) && w.lists.unknown == [] && w.lists.dropped == 0 && x !in w.clients
    ensures var w1 := Connected(w, x, false); x !in w1.global && w1.lists.unknown == [x] && w1.unknown == 1
  {
    hide TreeInv, ListInv, CountInv, FromInv;
    assert x in w.global ==> x in SetOf(w.global);
  }

  lemma AbortedIs(w: World, x: Id)
    requires w.lists.unknown == [x]
    ensures Aborted(w, x).unknown == w.unknown && Aborted(w, x).lists.unknown == []
  {
    assert w.lists.unknown[1..] == [] && Without([], x) == [];
  }

  lemma JoinedDropped(w: World, x: Id, i: Info)
    requires i.servptr in w.serv && i.servptr in w.depth
    ensures Joined(w, x, i).lists.dropped == w.lists.dropped
    ensures var p := Planted(w, x, i);
            p.global == w.global == Booked(p, x, i, i).global && p.alive == w.alive == Booked(p, x, i, i).alive
  {
  }

  lemma RegisteredDropped(w: World, x: Id, i: Info)
    ensures i.servptr in w.serv && i.servptr in w.depth ==> Registered(w, x, i).lists.dropped == w.lists.dropped
  {
  }

  lemma RecognizedTables(w: World, x: Id)
    ensures Recognized(w, x).serv == w.serv && Recognized(w, x).depth == w.depth
  {
  }

  lemma UnknownDistinct(me: Id, w: World)
    requires Inv(me, w)
    ensures Distinct(w.lists.unknown)
  {
  }

  lemma LeftLists(me: Id, w: World, w': World, x: Id, source: Id, split: bool, gone: seq<Id>)
    requires OneLeft(me, w, w', x, source, split, gone)
    ensures w'.lists == w.lists && SameRefusals(w.serv, w'.serv) && w'.count.Keys == w.count.Keys
    ensures Repeats in w.count ==> w'.count[Repeats] == w.count[Repeats]
  {
  }

  // ------------------------------------------------------------------------------------
  // The code
  // ------------------------------------------------------------------------------------

  class Ircd {
    const me: Id
    var clients: Clients
    var serv: map<Id, Serv>
    var persons: set<Id>
    var count: map<Kind, int>
    var unknown: int
    var lists: Lists
    var closing: set<Id>
    var exited: set<Id>
    var global: seq<Id>
    var alive: set<Id>
    var freed: seq<Id>
    var sent: seq<Msg>
    ghost var present: set<Id>
    ghost var depth: map<Id, nat>
    ghost var bound: nat

    ghost function W(): World
      reads this
    {
      World(clients, serv, persons, count, unknown, lists, closing, exited, global, alive, freed, sent,
            present, depth, bound)
    }

    /** SetExited and remove_client_from_list, which also frees the client */
    method Release(x: Id)
      requires Core(me, W()) && x in alive && x !in present
      modifies this
      ensures Core(me, W())
      ensures W() == old(W()).(global := Without(old(global), x), freed := old(freed) + [x],
                               alive := old(alive) - {x}, exited := old(exited) + {x})
    {
      hide TreeInv, ListInv, CountInv, Without;
      exited := exited + {x};
      WithoutSet(global, x);
      global := Without(global, x);
      alive := alive - {x};
      freed := freed + [x];
    }

    /** The loop over serv_list in exit_one_client: the SQUITs that it sends. */
    method Squits(x: Id, from: Id, source: Id) returns (msgs: seq<Msg>)
      ensures msgs == SquitTo(lists.servs, me, source, from, x)
    {
      hide SquitTo;
      msgs := [];
      ToNobody(me, source, from, x);
      var i, links := 0, lists.servs;
      assert links[0..] == links;
      while i < |links|
        invariant 0 <= i <= |links|
        invariant msgs + SquitTo(links[i..], me, source, from, x) == SquitTo(links, me, source, from, x)
      {
        var l := links[i];
        SquitToStep(links, me, source, from, x, i);
        if !(l == me || l == x || l == source) {
          msgs := msgs + [Squit(l, from == l, x)];
        }
        i := i + 1;
      }
      assert links[i..] == [];
    }

    /** sendto_serv_butone with QUIT: the messages that it sends. */
    method Quits(x: Id, but: Id) returns (msgs: seq<Msg>)
      ensures msgs == QuitTo(lists.servs, but, x)
    {
      hide QuitTo;
      msgs := [];
      ToNobody(me, me, but, x);
      var i, links := 0, lists.servs;
      assert links[0..] == links;
      while i < |links|
        invariant 0 <= i <= |links|
        invariant msgs + QuitTo(links[i..], but, x) == QuitTo(links, but, x)
      {
        QuitToStep(links, but, x, i);
        if links[i] != but {
          msgs := msgs + [Quit(links[i], x)];
        }
        i := i + 1;
      }
      assert links[i..] == [];
    }

    /** The counters that exit_one_client lowers. */
    method Uncount(x: Id)
      requires x in clients && forall k: Kind :: k in count
      modifies this
      ensures W() == old(W()).(count := Less(old(count), old(clients)[x], false))
    {
      hide Matches;
      var i := clients[x];
      ExitCounts(count, i);
      var c := Dec(Dec(count, Total, i.status.Client?), Oper, i.oper);
      c := Dec(Dec(c, Invisi, i.invisible), Servers, i.status.Server?);
      count := Dec(c, Services, i.status.Service?);
    }

    /** Only `x` has left, and only the tables tell. */
    twostate predicate Unlinked(x: Id)
      reads this
    {
      && Core(me, W()) && Unaltered(old(W()), W()) && present == old(present) - {x}
      && W() == old(W()).(serv := serv, count := count, persons := persons, present := present)
    }

    /** The end of the server part of exit_one_client, when nothing is left behind the server. */
    method UnlinkServer(x: Id)
      requires Core(me, W()) && x in present && clients[x].status.Server?
      requires serv[x].users == [] && serv[x].servers == []
      modifies this
      ensures Unlinked(x)
    {
      hide Dropped, Unaltered, Core, Less;
      UnlinkFacts(me, W(), x);
      var p := clients[x].servptr;
      if p in serv {
        serv := serv[p := Dropped(serv[p], clients[x], x)];
      }
      Uncount(x);
      serv := serv - {x};
      present := present - {x};
      UnlinkedKeeps(me, old(W()), W(), x);
    }

    /** The part of exit_one_client for a client that is not a server. */
    method UnlinkOther(x: Id)
      requires Core(me, W()) && x in present && x != me && !clients[x].status.Server?
      modifies this
      ensures Unlinked(x)
    {
      hide Dropped, Unaltered, Core, Less;
      UnlinkFacts(me, W(), x);
      Uncount(x);
      if clients[x].status.Client? && x in persons {
        var p := clients[x].servptr;
        if p in serv {
          serv := serv[p := Dropped(serv[p], clients[x], x)];
        }
        persons := persons - {x};
      }
      present := present - {x};
      UnlinkedKeeps(me, old(W()), W(), x);
    }

    /** The loop of exit_recursion over the users of a server. */
    method DropUsers(dead: Id, source: Id) returns (ghost gone: seq<Id>)
      requires Core(me, W()) && dead in present && dead in serv && dead != me
      modifies this
      ensures Core(me, W()) && Left(me, old(W()), W(), source, gone) && SetOf(gone) <= Behind(me, old(W()), dead)
      ensures dead in present && dead in serv && serv[dead].users == []
      ensures old(serv[dead].users) == [] ==> W() == old(W()) && gone == []
      decreases Level(W(), dead), 0
    {
      hide Core, Left, SetOf, Subtree;
      gone := [];
      ghost var w := W();
      LeftNothing(me, w, source);
      SetOfNothing();
      while serv[dead].users != []
        invariant Core(me, W()) && Left(me, w, W(), source, gone) && SetOf(gone) <= Behind(me, w, dead)
        invariant dead in present && dead in serv
        invariant w.serv[dead].users == [] ==> W() == w && gone == []
        decreases present
      {
        ghost var w1 := W();
        var u := serv[dead].users[0];
        ChildFacts(me, w1, dead, u);
        BehindShrinks(me, w, w1, source, gone, dead);
        ghost var g := Discard(u, dead);
        LeftAnySource(me, w1, W(), dead, u, source);
        LeftAppend(me, w, w1, W(), source, gone, g);
        gone := gone + g;
        BehindShrinks(me, w, W(), source, gone, dead);
      }
    }

    /** The loop of exit_recursion over the servers linked behind a server. */
    method DropServers(dead: Id, source: Id) returns (ghost gone: seq<Id>)
      requires Core(me, W()) && dead in present && dead in serv && dead != me && serv[dead].users == []
      modifies this
      ensures Core(me, W()) && Left(me, old(W()), W(), source, gone) && SetOf(gone) <= Behind(me, old(W()), dead)
      ensures dead in present && dead in serv && serv[dead].users == [] && serv[dead].servers == []
      ensures old(serv[dead].servers) == [] ==> W() == old(W()) && gone == []
      decreases Level(W(), dead), 0
    {
      hide Core, Left, SetOf, Subtree;
      gone := [];
      ghost var w := W();
      LeftNothing(me, w, source);
      SetOfNothing();
      while serv[dead].servers != []
        invariant Core(me, W()) && Left(me, w, W(), source, gone) && SetOf(gone) <= Behind(me, w, dead)
        invariant dead in present && dead in serv && serv[dead].users == []
        invariant w.serv[dead].servers == [] ==> W() == w && gone == []
        decreases present
      {
        ghost var w1 := W();
        var s := serv[dead].servers[0];
        ChildFacts(me, w1, dead, s);
        BehindShrinks(me, w, w1, source, gone, dead);
        ghost var g := ExitRecursion(s, source);
        ghost var w2 := W();
        BehindShrinks(me, w1, w2, source, g, s);
        ghost var g' := Discard(s, source);
        LeftAppend(me, w1, w2, W(), source, g, g');
        LeftAppend(me, w, w1, W(), source, gone, g + g');
        gone := gone + (g + g');
        BehindShrinks(me, w, W(), source, gone, dead);
      }
    }

    /**
     exit_recursion: everything behind `dead` leaves, users and servers before the server that
     they are on, and each server that leaves is announced when it leaves.
     */
    method ExitRecursion(dead: Id, source: Id) returns (ghost gone: seq<Id>)
      requires Core(me, W()) && dead in present
      modifies this
      ensures Core(me, W()) && Left(me, old(W()), W(), source, gone) && SetOf(gone) == Behind(me, old(W()), dead)
      ensures dead != me && dead in serv ==> serv[dead].users == [] && serv[dead].servers == []
      ensures old(dead in serv && serv[dead].users == [] && serv[dead].servers == []) ==> W() == old(W()) && gone == []
      decreases Level(W(), dead), 1
    {
      hide Core, Left, SetOf, Subtree;
      gone := [];
      ghost var w := W();
      LeftNothing(me, w, source);
      SetOfNothing();
      if dead == me || dead !in serv {
        if dead != me {
          AllBehindGone(me, w, w, source, [], dead);
        }
        return;
      }
      gone := DropUsers(dead, source);
      ghost var w1 := W();
      BehindShrinks(me, w, w1, source, gone, dead);
      ghost var g := DropServers(dead, source);
      LeftAppend(me, w, w1, W(), source, gone, g);
      gone := gone + g;
      AllBehindGone(me, w, W(), source, gone, dead);
    }

    /** exit_one_client, SetExited and remove_client_from_list, as exit_recursion does them. */
    method Discard(x: Id, source: Id) returns (ghost gone: seq<Id>)
      requires Core(me, W()) && x in present && x != me
      modifies this
      ensures Core(me, W()) && Left(me, old(W()), W(), source, gone)
      ensures SetOf(gone) == old(Subtree(clients, depth, present, x)) && present < old(present)
      ensures !IsServer(old(clients), x) ==> gone == [x]
      decreases Level(W(), x), 3
    {
      hide Core, SetOf, Released, ExitMessages;
      ghost var w := W();
      gone := ExitOneClient(x, source, true);
      ghost var w1 := W();
      StillAlive(me, w, w1, x, gone);
      Release(x);
      DiscardLeft(me, w, w1, W(), x, source, gone);
      gone := gone + [x];
    }

    /** exit_one_client */
    method ExitOneClient(x: Id, source: Id, split: bool) returns (ghost gone: seq<Id>)
      requires Core(me, W()) && x in present
      modifies this
      ensures Core(me, W()) && OneLeft(me, old(W()), W(), x, source, split, gone)
      decreases Level(W(), x), 2
    {
      hide Core, Left, SetOf, ExitMessages, OneLeft;
      gone := [];
      ghost var w := W();
      CoreFacts(me, w, x);
      if x == me {
        MeStays(me, w, source, split);
        return;
      }
      if clients[x].status.Server? {
        gone := ExitRecursion(x, source);
        ghost var w1 := W();
        BehindShrinks(me, w, w1, source, gone, x);
        LeftKept(me, w, w1, source, gone);
        var msgs := Squits(x, clients[x].from, source);
        CoreSent(me, w1, w1.sent + msgs);
        sent := sent + msgs;
        UnlinkServer(x);
        ServerOneLeft(me, w, w1, W(), x, source, split, gone);
      } else {
        if clients[x].status.Client? && x in persons && !split && !clients[x].killed {
          var msgs := Quits(x, clients[x].from);
          CoreSent(me, w, w.sent + msgs);
          sent := sent + msgs;
        }
        UnlinkOther(x);
        OtherOneLeft(me, w, W(), x, source, split);
      }
    }

    /** The part of exit_client that takes a local client off the lists and lowers the local counts. */
    method Unlist(x: Id)
      requires x in clients && clients[x].local && forall k: Kind :: k in count
      requires Distinct(lists.unknown)
      modifies this
      ensures var i := old(clients)[x];
              W() == old(W()).(lists := Unlisted(old(lists), i, x), count := Less(old(count), i, true),
                               unknown := old(unknown) - if x in old(lists).unknown then 1 else 0)
    {
      hide Matches, Distinct;
      var i := clients[x];
      LocalCounts(count, i);
      Recognize(x);
      var l, c := lists, count;
      if i.status.Client? {
        c := Dec(c, Local, true);
        if i.oper {
          l := l.(locopers := Without(l.locopers, x));
        }
        l := l.(lclients := Without(l.lclients, x));
      }
      if i.status.Server? {
        c := Dec(c, MyServer, true);
        c := Dec(c, MyUlined, i.uline);
        l := l.(servs := Without(l.servs, x));
      }
      lists := l;
      count := Dec(c, MyService, i.status.Service?);
    }

    /** exit_client for a local client, once it is marked as closing */
    method ExitLocal(x: Id, source: Id, ghost w: World) returns (ghost gone: seq<Id>)
      requires Inv(me, w) && W() == w.(closing := w.closing + {x}) && x in w.present && Exitable(me, w, x) && w.clients[x].local
      modifies this
      ensures Inv(me, W()) && ClientExits(me, w, W(), x, source, gone) && NoneDrifts(w, W())
    {
      hide Core, FromInv, LocalInv, OneLeft, Less, ClientExits;
      InvFacts(me, w, x);
      LessKeeps(w.count, w.clients[x], true);
      Unlist(x);
      DepartingCore(me, w, x);
      gone := ExitOneClient(x, source, false);
      LeftLists(me, Departing(w, x), W(), x, source, false, gone);
      LocalExitKeeps(me, w, W(), x, source, gone);
      lists := lists.(exits := [x] + lists.exits);
      exited := exited + {x};
    }

    /** exit_client for a remote client, once it is marked as closing */
    method ExitRemote(x: Id, source: Id, ghost w: World) returns (ghost gone: seq<Id>)
      requires Inv(me, w) && W() == w.(closing := w.closing + {x}) && x in w.present && Exitable(me, w, x) && !w.clients[x].local
      modifies this
      ensures Inv(me, W()) && ClientExits(me, w, W(), x, source, gone) && NoneDrifts(w, W())
    {
      hide Core, FromInv, LocalInv, OneLeft, Less, ClientExits;
      InvFacts(me, w, x);
      DepartingCore(me, w, x);
      gone := ExitOneClient(x, source, false);
      LeftLists(me, Departing(w, x), W(), x, source, false, gone);
      RemoteExitKeeps(me, w, W(), x, source, gone);
      Release(x);
    }

    /** exit_client */
    method ExitClient(x: Id, source: Id) returns (ghost gone: seq<Id>)
      requires Inv(me, W()) && x in alive
      modifies this
      ensures Inv(me, W())
      ensures x == me || x in old(exited) + old(closing) || old(clients)[x].httpClient ==> W() == old(W())
      ensures !(x == me || x in old(exited) + old(closing) || old(clients)[x].httpClient) ==>
                if old(clients)[x].local && old(clients)[x].httpListener then W() == old(W()).(closing := old(closing) + {x})
                else ClientExits(me, old(W()), W(), x, source, gone)
      ensures NoneDrifts(old(W()), W())
    {
      hide Core, FromInv, LocalInv, ClientExits;
      gone := [];
      ghost var w := W();
      InvFacts(me, w, x);
      if x == me || x in exited || x in closing || clients[x].httpClient {
        return;
      }
      closing := closing + {x};
      if clients[x].local {
        if clients[x].httpListener {
          HttpStays(me, w, x);
          return;
        }
        gone := ExitLocal(x, source, w);
      } else {
        gone := ExitRemote(x, source, w);
      }
    }

    /** remove_exited_clients */
    method RemoveExitedClients()
      requires Inv(me, W())
      modifies this
      ensures Inv(me, W())
      ensures lists == old(lists).(exits := []) && freed == old(freed) + Reverse(old(lists).exits)
      ensures present == old(present) && clients == old(clients) && sent == old(sent) && alive == present
      ensures serv == old(serv) && count == old(count)
    {
      hide Core, FromInv, LocalInv, LifeInv, Without;
      ghost var exits := lists.exits;
      var ptr := |lists.exits|;
      while ptr > 0
        invariant 0 <= ptr <= |exits| && Inv(me, W())
        invariant lists == old(lists).(exits := exits[..ptr])
        invariant freed + Reverse(exits[..ptr]) == old(freed) + Reverse(exits)
        invariant present == old(present) && clients == old(clients) && sent == old(sent)
        invariant serv == old(serv) && count == old(count)
      {
        ptr := ptr - 1;
        var x := lists.exits[ptr];
        ReclaimKeeps(me, W(), x);
        assert exits[..ptr + 1][..ptr] == exits[..ptr];
        if x in exited {
          Release(x);
          lists := lists.(exits := lists.exits[..ptr]);
        }
      }
      assert alive == present by { NoneExited(me, W()); }
    }

    /** A server that is alone in the world. */
    constructor (me: Id, self: Info)
      requires self.status.Me? && !self.local && !self.oper && !self.invisible
      ensures Inv(me, W()) && this.me == me && present == {me} && clients == map[me := self]
      ensures lists == Lists([], [], [], [], [], 0) && unknown == 0 && NoDrift(W())
    {
      this.me := me;
      clients, serv, persons := map[me := self], map[me := NOBODY], {};
      count := map[Total := 0, Oper := 0, Invisi := 0, Servers := 0, Services := 0,
                   Local := 0, MyServer := 0, MyUlined := 0, MyService := 0, Repeats := 0];
      unknown, lists := 0, Lists([], [], [], [], [], 0);
      closing, exited, global, alive, freed, sent := {}, {}, [me], {me}, [], [];
      present, depth, bound := {me}, map[me := 0], 0;
      new;
      forall k: Kind ensures k in count && count[k] == 0 {
        match k {
          case Total => case Oper => case Invisi => case Servers => case Services =>
          case Local => case MyServer => case MyUlined => case MyService => case Repeats =>
        }
      }
      AloneInv(me, W(), self);
    }

    /** add_client_to_llist for a new client */
    method Plant(x: Id, i: Info)
      requires i.servptr in serv && i.servptr in depth
      modifies this
      ensures W() == Planted(old(W()), x, i)
    {
      hide Added;
      var p := i.servptr;
      var listed := serv[p := Added(serv[p], i, x)];
      if i.status.Server? {
        listed := listed[x := NOBODY];
      }
      serv := listed;
      clients := clients[x := i];
      Sprout(x, depth[p] + 1);
    }

    /** The witness of the tree for a new leaf */
    ghost method Sprout(x: Id, d: nat)
      modifies this
      ensures W() == old(W()).(present := old(present) + {x}, depth := old(depth)[x := d], bound := if d > old(bound) then d else old(bound))
    {
      present := present + {x};
      depth := depth[x := d];
      bound := if d > bound then d else bound;
    }

    /** The counters and lists for a client that has joined */
    method Book(x: Id, i: Info, counted: Info)
      modifies this
      ensures W() == Booked(old(W()), x, i, counted)
    {
      hide More, Listed;
      persons := if i.status.Client? then persons + {x} else persons;
      count := More(count, counted);
      lists := Listed(lists, i, x);
      closing := closing - {x};
    }

    /** A user or a server is introduced: it is entered in the tables, in the list of its server, and in the counters. */
    method Join(x: Id, i: Info)
      requires Inv(me, W()) && Joinable(me, clients, serv, x, i)
      modifies this
      ensures i.servptr in old(serv) && i.servptr in old(depth) && W() == Joined(old(W()), x, i) && Inv(me, W())
      ensures lists.dropped == old(lists.dropped)
    {
      hide Inv, Joinable, Planted, Booked;
      JoinKeeps(me, W(), x, i);
      JoinedDropped(W(), x, i);
      Plant(x, i);
      Book(x, i, i);
      global := [x] + global;
      alive := alive + {x};
    }

    /** make_client for a connection of our own */
    method Connect(x: Id, http: bool)
      requires Inv(me, W()) && x !in clients
      modifies this
      ensures Inv(me, W()) && W() == Connected(old(W()), x, http)
    {
      hide Inv;
      ConnectedKeeps(me, W(), x, http);
      clients := clients[x := Newcomer(x, http)];
      present, alive, depth := present + {x}, alive + {x}, depth[x := 0];
      closing := closing - {x};
      lists := lists.(unknown := [x] + lists.unknown);
      unknown := unknown + 1;
    }

    /** add_client_to_list */
    method Greet(x: Id)
      requires Inv(me, W()) && Waiting(me, W(), x) && x !in global
      modifies this
      ensures Inv(me, W()) && W() == Greeted(old(W()), x)
    {
      hide Inv, Waiting;
      GreetedKeeps(me, W(), x);
      global := [x] + global;
    }

    /** dlinkFind in unknown_list, and what follows if it finds the client */
    method Recognize(x: Id)
      requires Distinct(lists.unknown)
      modifies this
      ensures W() == Recognized(old(W()), x)
    {
      WithoutSize(lists.unknown, x);
      if x in lists.unknown {
        unknown := unknown - 1;
        lists := lists.(unknown := Without(lists.unknown, x));
      }
    }

    /** The failure paths of add_connection and of outgoing connections */
    method AbortClient(x: Id)
      requires Inv(me, W()) && Waiting(me, W(), x) && x !in global
      modifies this
      ensures Inv(me, W()) && W() == Aborted(old(W()), x)
    {
      hide Inv, Waiting, Without, Distinct;
      AbortedKeeps(me, W(), x);
      UnknownDistinct(me, W());
      WithoutSize(lists.unknown, x);
      if x in lists.unknown {
        lists := lists.(unknown := Without(lists.unknown, x), dropped := lists.dropped + 1);
      }
      present, alive, exited, freed := present - {x}, alive - {x}, exited + {x}, freed + [x];
    }

    /** register_local_user and server_estab: the client leaves unknown_list and is entered like any other */
    method RegisterClient(x: Id, i: Info)
      requires Inv(me, W()) && Registrable(me, W(), x, i)
      modifies this
      ensures Inv(me, W()) && me in old(serv) && me in old(depth) && W() == Registered(old(W()), x, i)
      ensures x !in lists.unknown && unknown == old(unknown) - 1 && lists.dropped == old(lists.dropped)
    {
      hide Inv, Waiting, Planted, Booked, Recognized;
      RegisteredKeeps(me, W(), x, i);
      RegisteredDropped(W(), x, i);
      UnknownDistinct(me, W());
      RecognizedTables(W(), x);
      Recognize(x);
      Plant(x, i);
      Book(x, i, i.(invisible := false));
    }

    /** do_local_user for a client that has not registered */
    method SendUser(x: Id)
      requires Inv(me, W()) && Waiting(me, W(), x) && x in global
      modifies this
      ensures Invisi in old(count) && Repeats in old(count) && Inv(me, W()) && W() == UserSent(old(W()), x)
    {
      hide Inv;
      UserSentKeeps(me, W(), x);
      ghost var again := if clients[x].invisible then 1 else 0;
      if clients[x].invisible {
        count := count[Repeats := count[Repeats] + 1];
      }
      clients := clients[x := clients[x].(invisible := true)];
      count := count[Invisi := count[Invisi] + 1];
      assert count == old(count)[Invisi := old(count)[Invisi] + 1][Repeats := old(count)[Repeats] + again];
    }

    /**
     register_remote_user for a user that comes from the wrong direction or with a server that is
     not there: it is counted, its server is set, and exit_client undoes what was not done.
     */
    method RefuseUser(x: Id, i: Info)
      requires Inv(me, W()) && Refusable(clients, serv, x, i)
      modifies this
      ensures Inv(me, W()) && W() == Refused(old(W()), x, i)
    {
      hide Inv;
      RefusedKeeps(me, W(), x, i);
      AllKinds(me, W());
      var c := count[Total := count[Total] + 1];
      clients := clients[x := i.(killed := true)];
      c := Dec(c, Total, true);
      assert c == count;
      count := c;
      var p := i.servptr;
      if p in serv {
        serv := serv[p := Blamed(serv[p])];
      }
      exited := exited + {x};
      freed := freed + [x];
    }

    method TryRegister(x: Id, i: Info)
      requires Inv(me, W())
      modifies this
      ensures Inv(me, W()) && Drifts(me, old(W()), Register(x, i), W()) && Happens(me, old(W()), Register(x, i), W())
    {
      hide Inv, Registered, Drifts, NoneDrifts, Settles, SameRefusals, Happens;
      ghost var w := W();
      Unmoved(me, w);
      if && x != me && x in alive && x !in exited && x in clients && IsUnregistered(clients[x])
         && !clients[x].httpListener && x in global
         && InTree(i) && i.local && i.servptr == me && i.from == x && i.invisible == clients[x].invisible {
        RegisterClient(x, i);
        RegisteredDrifts(me, w, x, i);
      } else {
        SameDrifts(me, w, Register(x, i), W());
      }
      RegisterHappens(me, w, x, i, W());
    }

    method TryIntroduce(x: Id, i: Info)
      requires Inv(me, W())
      modifies this
      ensures Inv(me, W()) && Drifts(me, old(W()), Introduce(x, i), W()) && Happens(me, old(W()), Introduce(x, i), W())
    {
      hide Inv, Joined, Drifts, Refused, NoneDrifts, Settles, SameRefusals, Happens;
      ghost var w := W();
      Unmoved(me, w);
      if Joinable(me, clients, serv, x, i) && !i.local {
        Join(x, i);
        JoinedDrifts(me, w, x, i);
      } else if Refusable(clients, serv, x, i) {
        RefuseUser(x, i);
        RefusedDrifts(me, w, x, i);
      } else {
        SameDrifts(me, w, Introduce(x, i), W());
      }
      IntroduceHappens(me, w, x, i, W());
    }

    /** A client that was released is not exited again. */
    method TryExit(x: Id, source: Id)
      requires Inv(me, W())
      modifies this
      ensures Inv(me, W()) && Drifts(me, old(W()), Exit(x, source), W()) && Happens(me, old(W()), Exit(x, source), W())
    {
      hide Inv, Drifts, NoneDrifts, Settles, ClientExits, SameRefusals, Happens;
      ghost var w, gone := W(), [];
      Unmoved(me, w);
      if x in alive {
        InvFacts(me, w, x);
        gone := ExitClient(x, source);
        ExitedClients(me, w, W(), x, source, gone);
      }
      SameDrifts(me, w, Exit(x, source), W());
      ExitHappens(me, w, x, source, W(), gone);
    }

    /** Any step; those that cannot happen change nothing. */
    method Do(s: Step)
      requires Inv(me, W())
      modifies this
      ensures Inv(me, W()) && Drifts(me, old(W()), s, W()) && Happens(me, old(W()), s, W())
    {
      hide Inv, Joined, Registered, Drifts, UserSent, Refused, NoneDrifts, Settles, ClientExits, SameRefusals, Happens, Connected, Greeted, Recognized, Aborted;
      ghost var w := W();
      Unmoved(me, w);
      AllKinds(me, w);
      match s {
        case Connect(x, http) =>
          if x !in clients { Connect(x, http); ConnectedDrifts(w, x, http); }
          SameDrifts(me, w, s, W());
          ConnectHappens(me, w, x, http, W());
        case Greet(x) =>
          if x != me && x in alive && x !in exited && x in clients && IsUnregistered(clients[x]) && x !in global {
            Greet(x);
            GreetedDrifts(w, x);
          }
          SameDrifts(me, w, s, W());
          GreetHappens(me, w, x, W());
        case Serve(x) =>
          if x != me && x in alive && x !in exited && x in clients && IsUnregistered(clients[x]) && clients[x].httpListener {
            RecognizedKeeps(me, W(), x);
            UnknownDistinct(me, W());
            Recognize(x);
            RecognizedDrifts(w, x);
          }
          SameDrifts(me, w, s, W());
          ServeHappens(me, w, x, W());
        case Abort(x) =>
          if x != me && x in alive && x !in exited && x in clients && IsUnregistered(clients[x]) && x !in global {
            AbortClient(x);
          }
          AbortedDrifts(me, w, s, W());
          AbortHappens(me, w, x, W());
        case User(x) =>
          if && x != me && x in alive && x !in exited && x in clients && IsUnregistered(clients[x])
             && x in global && !clients[x].httpListener {
            SendUser(x);
          }
          UserDrifts(me, w, s, W());
          UserHappens(me, w, x, W());
        case Register(x, i) => TryRegister(x, i);
        case Introduce(x, i) => TryIntroduce(x, i);
        case Exit(x, source) => TryExit(x, source);
        case Reclaim =>
          RemoveExitedClients();
          SameDrifts(me, w, s, W());
          ReclaimHappens(me, w, W());
      }
    }

    /**
     Any run of such steps: the tree, the lists, the counters and the records agree after each of
     them. Count.unknown is the length of unknown_list exactly if no step has dropped a client,
     Count.invisi the number of invisible clients exactly if no USER was repeated, and usercnt of a
     server the number of its users exactly if no introduction to it was refused. All other
     counters are always right.
     */
    method Run(steps: seq<Step>) returns (ghost worlds: seq<World>)
      requires Inv(me, W()) && NoDrift(W())
      modifies this
      ensures Inv(me, W()) && |worlds| == |steps| + 1 && worlds[0] == old(W()) && worlds[|steps|] == W()
      ensures forall k :: 0 <= k < |worlds| ==> Inv(me, worlds[k])
      ensures forall k :: 0 <= k < |steps| ==> Happens(me, worlds[k], steps[k], worlds[k + 1])
      ensures unknown == |lists.unknown| <==> forall k :: 0 <= k < |steps| ==> !Drops(me, worlds[k], steps[k])
      ensures present <= clients.Keys && Invisi in count
      ensures count[Invisi] == |Those(clients, present, Invisi)| <==> forall k :: 0 <= k < |steps| ==> !Repeated(me, worlds[k], steps[k])
      ensures forall t :: t in serv ==>
        (serv[t].usercnt == |serv[t].users| <==> forall k :: 0 <= k < |steps| ==> !Refuses(worlds[k], steps[k], t))
      ensures forall k: Kind :: k != Invisi && k != Repeats ==> k in count && count[k] == |Those(clients, present, k)|
    {
      hide Inv, DriftsSoFar, Drifts, Those, Happens;
      worlds := [W()];
      DriftsStart(me, W(), steps);
      for i := 0 to |steps|
        invariant Inv(me, W()) && |worlds| == i + 1 && worlds[0] == old(W()) && worlds[i] == W()
        invariant forall k :: 0 <= k <= i ==> Inv(me, worlds[k])
        invariant forall k :: 0 <= k < i ==> Happens(me, worlds[k], steps[k], worlds[k + 1])
        invariant DriftsSoFar(me, worlds, steps, i)
      {
        Do(steps[i]);
        DriftsOn(me, worlds, steps, i, W());
        worlds := worlds + [W()];
      }
      DriftsEnd(me, worlds, steps, W());
    }
  }

  // ------------------------------------------------------------------------------------
  // Runs in which a count drifts
  // ------------------------------------------------------------------------------------

  /** A server that is linked to us. */
  function Linked(me: Id, x: Id): Info {
    Info(Server, true, x, me, false, false, false, false, false, false)
  }

  /** A server connects, and server_estab completes. */
  method LinkUp(ircd: Ircd, x: Id)
    requires Inv(ircd.me, ircd.W()) && x !in ircd.clients
    modifies ircd
    ensures Inv(ircd.me, ircd.W()) && ircd.clients == old(ircd.clients)[x := Linked(ircd.me, x)]
    ensures ircd.present == old(ircd.present) + {x} && ircd.exited == old(ircd.exited) && ircd.closing == old(ircd.closing) - {x}
    ensures x in ircd.serv && ircd.serv[x] == NOBODY && forall t :: t in old(ircd.serv) && t != ircd.me ==> t in ircd.serv && ircd.serv[t] == old(ircd.serv)[t]
  {
    hide Inv;
    NewToList(ircd.me, ircd.W(), x);
    ircd.Connect(x, false);
    ircd.Greet(x);
    RegistersNow(ircd.me, ircd.W(), x);
    ircd.RegisterClient(x, Linked(ircd.me, x));
  }

  lemma NewToList(me: Id, w: World, x: Id)
    requires Inv(me, w) && x !in w.clients
    ensures x !in w.global && x !in w.exited && x != me && x !in w.serv && Waiting(me, Connected(w, x, false), x)
  {
    hide TreeInv, CountInv, FromInv, LocalInv;
    assert x in w.global ==> x in SetOf(w.global);
    ConnectedKeeps(me, w, x, false);
  }

  lemma RegistersNow(me: Id, w: World, x: Id)
    requires Waiting(me, w, x) && x in w.global && !w.clients[x].httpListener && !w.clients[x].invisible
    ensures Registrable(me, w, x, Linked(me, x))
  {
  }

  lemma InvisiIs(me: Id, w: World)
    requires Inv(me, w)
    ensures w.present <= w.clients.Keys && Invisi in w.count && Repeats in w.count
    ensures w.count[Invisi] == |Those(w.clients, w.present, Invisi)| + w.count[Repeats]
  {
    hide TreeInv, ListInv, FromInv, ListsExact, LifeInv, Those;
  }

  /** A client connects and sends USER twice: one client is invisible, and two are counted. */
  method RepeatUser(self: Info) returns (ircd: Ircd)
    requires self.status.Me? && !self.local && !self.oper && !self.invisible
    ensures Inv(0, ircd.W()) && ircd.present <= ircd.clients.Keys && Invisi in ircd.count
    ensures ircd.count[Invisi] == |Those(ircd.clients, ircd.present, Invisi)| + 1
  {
    hide Inv, Those;
    ircd := new Ircd(0, self);
    NewToList(0, ircd.W(), 1);
    ircd.Connect(1, false);
    ircd.Greet(1);
    UserSentKeeps(0, ircd.W(), 1);
    ircd.SendUser(1);
    UserSentKeeps(0, ircd.W(), 1);
    ircd.SendUser(1);
    InvisiIs(0, ircd.W());
  }

  /** Two servers link to us, and one introduces a user on the other: usercnt of that one falls below zero. */
  method RefuseOne(self: Info, i: Info) returns (ircd: Ircd)
    requires self.status.Me? && !self.local && !self.oper && !self.invisible
    requires i.status.Client? && !i.local && i.servptr == 1 && i.from == 2
    ensures Inv(0, ircd.W()) && 1 in ircd.serv && ircd.serv[1].usercnt == -1 && ircd.serv[1].users == []
  {
    hide Inv;
    ircd := new Ircd(0, self);
    LinkUp(ircd, 1);
    LinkUp(ircd, 2);
    ServIs(0, ircd.W(), 1);
    ircd.RefuseUser(3, i);
  }

  lemma ServIs(me: Id, w: World, t: Id)
    requires Inv(me, w) && t in w.present && t in w.clients && w.clients[t].status.Server?
    ensures t in w.serv
  {
    hide TreeInv, CountInv, FromInv, ListsExact, LifeInv;
  }
}
