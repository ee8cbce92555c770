/**
 Listening sockets and the count of the clients that came in through each (server/s_listener.c,
 with the counting in server/s_bsd.c and server/s_exit.c).
 */
module Listeners {
  import opened LinkedLists

  type Id = nat
  type Client = nat
  type Addr = nat

  /** A struct Listener; `open` stands for fd >= 0. */
  datatype Listener = Listener(port: int, addr: Addr, open: bool, active: bool, refs: int, http: bool)

  /**
   `all` are the listeners that are allocated, `list` is ListenerPollList, `clients` the listener
   that each client points to, `leaked` the references that no client will give back, `freed` the
   listeners that were freed.
   */
  datatype World = World(all: map<Id, Listener>, list: seq<Id>, clients: map<Client, Id>, leaked: multiset<Id>,
                         freed: seq<Id>, next: Id)

  // ------------------------------------------------------------------------------------
  // What holds at every point
  // ------------------------------------------------------------------------------------

  ghost function Users(clients: map<Client, Id>, id: Id): set<Client> {
    set c | c in clients && clients[c] == id
  }

  ghost predicate RefsOk(w: World, id: Id)
    requires id in w.all
  {
    w.all[id].refs == |Users(w.clients, id)| + w.leaked[id]
  }

  /** A listener that does not listen is there only because it is still referenced. */
  ghost predicate StateOk(l: Listener) {
    (l.active <==> l.open) && (!l.active ==> l.refs > 0)
  }

  /** The list holds the listeners that are allocated, each once; all others were freed, once. */
  ghost predicate Books(all: set<Id>, list: seq<Id>, freed: seq<Id>, next: Id) {
    && Distinct(list) && (forall id :: id in list <==> id in all)
    && Distinct(freed) && (forall id: Id :: id in freed <==> id < next && id !in all)
    && (forall id :: id in all ==> id < next)
  }

  /** All holds, but `loose` may be closed without being referenced. */
  ghost predicate InvBut(w: World, loose: Option<Id>) {
    && Books(w.all.Keys, w.list, w.freed, w.next)
    && (forall id :: id in w.all ==> RefsOk(w, id))
    && (forall id :: id in w.all && loose != Some(id) ==> StateOk(w.all[id]))
    && (forall c :: c in w.clients ==> w.clients[c] in w.all)
    && (forall id :: id in w.leaked ==> id in w.all)
  }

  /** The count covers the clients, and no client points to a listener that was freed. */
  ghost predicate Inv(w: World) {
    InvBut(w, None)
  }

  // ------------------------------------------------------------------------------------
  // Steps
  // ------------------------------------------------------------------------------------

  /** free_listener */
  function Freed(w: World, id: Id): World {
    w.(all := w.all - {id}, list := Without(w.list, id), freed := w.freed + [id])
  }

  function With(w: World, id: Id, l: Listener): World {
    w.(all := w.all[id := l])
  }

  /** close_listener */
  function Closed(w: World, id: Id): World
    requires id in w.all
  {
    var w1 := With(w, id, w.all[id].(open := false, active := false));
    if w1.all[id].refs != 0 then w1 else Freed(w1, id)
  }

  /** A client comes in: its listener is counted. */
  function Counted(w: World, c: Client, id: Id): World
    requires id in w.all
  {
    With(w, id, w.all[id].(refs := w.all[id].refs + 1)).(clients := w.clients[c := id])
  }

  /** A client lets go of its listener without giving the reference back. */
  function Lost(w: World, c: Client): World
    requires c in w.clients
  {
    w.(clients := w.clients - {c}, leaked := w.leaked + multiset{w.clients[c]})
  }

  /** How add_connection goes on after it has counted the listener. */
  datatype Setup = Works | SslFails

  /** The client came in through a listener for HTTP, or through another; exit_client ignores the former. */
  predicate Through(w: World, c: Client, http: bool) {
    c in w.clients && w.clients[c] in w.all && w.all[w.clients[c]].http == http
  }

  /**
   What add_connection gets on a listener that is open: a new client, or for HTTP one that is
   there already, which the hook hands back in place of the new record.
   */
  predicate Accepts(w: World, id: Id, c: Client) {
    id in w.all && w.all[id].open && (c !in w.clients || (w.all[id].http && Through(w, c, true)))
  }

  /** The client points to the listener from now on, and is freed again if its SSL setup fails. */
  function Connected(w: World, id: Id, c: Client, setup: Setup): World
    requires Accepts(w, id, c)
  {
    var w1 := Counted(if c in w.clients then Lost(w, c) else w, c, id);
    if setup.Works? then w1 else Lost(w1, c)
  }

  /** What add_connection leaves, field by field */
  lemma ConnectedIs(w: World, id: Id, c: Client, setup: Setup)
    requires Accepts(w, id, c)
    ensures Connected(w, id, c, setup) ==
            World(w.all[id := w.all[id].(refs := w.all[id].refs + 1)], w.list,
                  if setup.Works? then w.clients[c := id] else w.clients[c := id] - {c},
                  var lost := if c in w.clients then w.leaked + multiset{w.clients[c]} else w.leaked;
                  if setup.Works? then lost else lost + multiset{id}, w.freed, w.next)
  {
    hide Through;
    assert (w.clients - {c})[c := id] == w.clients[c := id];
  }

  /** The end of exit_client */
  function Exited(w: World, c: Client): World
    requires c in w.clients && w.clients[c] in w.all
  {
    var id := w.clients[c];
    var l := w.all[id].(refs := w.all[id].refs - 1);
    var w1 := With(w, id, l).(clients := w.clients - {c});
    if l.refs == 0 && !l.active then Freed(w1, id) else w1
  }

  lemma FreedBooks(all: set<Id>, list: seq<Id>, freed: seq<Id>, next: Id, id: Id)
    requires Books(all, list, freed, next) && id in all
    ensures Books(all - {id}, Without(list, id), freed + [id], next)
  {
    WithoutDistinct(list, id);
    WithoutMembers(list, id);
  }

  /** Freeing is right for a listener that no client points to. */
  lemma FreedKeeps(w: World, id: Id)
    requires InvBut(w, Some(id)) && id in w.all && w.all[id].refs == 0
    ensures Inv(Freed(w, id))
  {
    hide Books;
    FreedBooks(w.all.Keys, w.list, w.freed, w.next, id);
    var w' := Freed(w, id);
    assert w'.all.Keys == w.all.Keys - {id};
    assert RefsOk(w, id);
    assert Users(w.clients, id) == {};
    forall c | c in w.clients ensures w.clients[c] in w'.all {
      assert c in w.clients && w.clients[c] == id ==> c in Users(w.clients, id);
    }
    forall k | k in w'.all ensures RefsOk(w', k) {
      assert RefsOk(w, k);
    }
  }

  lemma ClosedKeeps(w: World, id: Id)
    requires Inv(w) && id in w.all
    ensures Inv(Closed(w, id))
  {
    hide Books;
    var w1 := With(w, id, w.all[id].(open := false, active := false));
    assert w1.all.Keys == w.all.Keys;
    forall k | k in w1.all ensures RefsOk(w1, k) {
      assert RefsOk(w, k);
    }
    assert RefsOk(w, id);
    if w1.all[id].refs == 0 {
      FreedKeeps(w1, id);
    }
  }

  lemma UsersMore(clients: map<Client, Id>, c: Client, id: Id, k: Id)
    requires c !in clients
    ensures Users(clients[c := id], k) == Users(clients, k) + (if k == id then {c} else {})
  {
  }

  lemma UsersLess(clients: map<Client, Id>, c: Client, k: Id)
    requires c in clients
    ensures Users(clients - {c}, k) == Users(clients, k) - {c}
    ensures c in Users(clients, k) <==> clients[c] == k
  {
  }

  lemma CountedRefs(w: World, c: Client, id: Id, k: Id)
    requires c !in w.clients && id in w.all && k in w.all && RefsOk(w, k)
    ensures RefsOk(Counted(w, c, id), k)
  {
    UsersMore(w.clients, c, id, k);
  }

  lemma CountedKeeps(w: World, c: Client, id: Id)
    requires Inv(w) && id in w.all && c !in w.clients
    ensures Inv(Counted(w, c, id))
  {
    hide Books, RefsOk;
    var w' := Counted(w, c, id);
    assert w'.all.Keys == w.all.Keys;
    RefsCover(w, id);
    forall k | k in w'.all ensures RefsOk(w', k) {
      CountedRefs(w, c, id, k);
    }
  }

  lemma RefsCover(w: World, id: Id)
    requires id in w.all && RefsOk(w, id)
    ensures w.all[id].refs >= 0 && forall c :: c in w.clients && w.clients[c] == id ==> w.all[id].refs > 0
  {
    forall c | c in w.clients && w.clients[c] == id ensures w.all[id].refs > 0 {
      assert c in Users(w.clients, id);
    }
  }

  lemma LostKeeps(w: World, c: Client)
    requires Inv(w) && c in w.clients
    ensures Inv(Lost(w, c))
  {
    hide Books;
    var w' := Lost(w, c);
    forall k | k in w'.all ensures RefsOk(w', k) {
      assert RefsOk(w, k);
      UsersLess(w.clients, c, k);
    }
  }

  /** Also a client that is handed back is counted, and its old reference is lost. */
  lemma ConnectedKeeps(w: World, id: Id, c: Client, setup: Setup)
    requires Inv(w) && Accepts(w, id, c)
    ensures Inv(Connected(w, id, c, setup))
    ensures forall k :: Connected(w, id, c, setup).leaked[k] == w.leaked[k] + LostBy(w, Accept(id, c, setup), k)
    ensures c in Connected(w, id, c, setup).clients <==> setup.Works?
  {
    hide InvBut, RefsOk;
    if c in w.clients {
      LostKeeps(w, c);
    }
    var w0 := if c in w.clients then Lost(w, c) else w;
    CountedKeeps(w0, c, id);
    LostKeeps(Counted(w0, c, id), c);
  }

  function Uncounted(w: World, c: Client): World
    requires c in w.clients && w.clients[c] in w.all
  {
    var id := w.clients[c];
    With(w, id, w.all[id].(refs := w.all[id].refs - 1)).(clients := w.clients - {c})
  }

  lemma UncountedRefs(w: World, c: Client, k: Id)
    requires c in w.clients && w.clients[c] in w.all && k in w.all && RefsOk(w, k)
    ensures RefsOk(Uncounted(w, c), k)
  {
    UsersLess(w.clients, c, k);
  }

  /** The assertion that ref_count is positive holds, and the listener is freed only without references. */
  lemma ExitedKeeps(w: World, c: Client)
    requires Inv(w) && c in w.clients
    ensures w.clients[c] in w.all && w.all[w.clients[c]].refs > 0 && Inv(Exited(w, c))
  {
    hide Books, RefsOk;
    var id := w.clients[c];
    var w1 := Uncounted(w, c);
    RefsCover(w, id);
    assert w1.all.Keys == w.all.Keys;
    forall k | k in w1.all ensures RefsOk(w1, k) {
      UncountedRefs(w, c, k);
    }
    if w1.all[id].refs == 0 && !w1.all[id].active {
      FreedKeeps(w1, id);
    }
  }

  // ------------------------------------------------------------------------------------
  // Adding and closing
  // ------------------------------------------------------------------------------------

  predicate Matches(l: Listener, port: int, addr: Addr) {
    l.port == port && l.addr == addr
  }

  /** find_listener: the first open match, or else the last closed one. */
  function Find(all: map<Id, Listener>, list: seq<Id>, port: int, addr: Addr, closed: Option<Id>): (r: Option<Id>)
    requires forall id :: id in list ==> id in all
    decreases |list|
  {
    if list == [] then closed
    else if !Matches(all[list[0]], port, addr) then Find(all, list[1..], port, addr, closed)
    else if all[list[0]].open then Some(list[0])
    else Find(all, list[1..], port, addr, Some(list[0]))
  }

  /** An open match is preferred, a closed one is found if there is no open one, and nothing else is. */
  lemma {:induction false} FindFinds(all: map<Id, Listener>, list: seq<Id>, port: int, addr: Addr, closed: Option<Id>)
    requires forall id :: id in list ==> id in all
    requires closed.Some? ==> closed.value in all && Matches(all[closed.value], port, addr) && !all[closed.value].open
    ensures var r := Find(all, list, port, addr, closed);
            && (r.Some? ==> r.value in all && Matches(all[r.value], port, addr) && (r.value in list || r == closed))
            && (r.None? ==> closed.None? && forall id :: id in list ==> !Matches(all[id], port, addr))
            && ((r.Some? && all[r.value].open) <==> exists id :: id in list && Matches(all[id], port, addr) && all[id].open)
    decreases |list|
  {
    if list != [] {
      var rest := list[1..];
      var hit := Matches(all[list[0]], port, addr);
      if hit && all[list[0]].open {
        assert list[0] in list;
      } else {
        FindFinds(all, rest, port, addr, if hit then Some(list[0]) else closed);
        assert forall id :: id in list <==> id == list[0] || id in rest;
      }
    }
  }

  /** Some socket listens on the address. */
  predicate ListensOn(w: World, port: int, addr: Addr) {
    exists id :: id in w.all && w.all[id].open && Matches(w.all[id], port, addr)
  }

  /**
   inetport: with SO_REUSEADDR alone, bind() refuses an address that is listened on; `works` is
   whether all else succeeds.
   */
  predicate Binds(w: World, l: Listener, works: bool) {
    works && !ListensOn(w, l.port, l.addr)
  }

  /** The listener of the given id is opened, or closed if that fails. */
  function Opened(w: World, id: Id, works: bool): World
    requires id in w.all
  {
    var w1 := With(w, id, w.all[id].(open := false));
    if Binds(w1, w.all[id], works) then With(w1, id, w1.all[id].(open := true, active := true)) else Closed(w1, id)
  }

  /** A new listener at the head of the list, not open yet. */
  function Made(w: World, port: int, addr: Addr, http: bool): World {
    World(w.all[w.next := Listener(port, addr, false, false, 0, http)], [w.next] + w.list, w.clients, w.leaked, w.freed, w.next + 1)
  }

  /**
   add_listener. The lookup uses an address that is not initialised, here `junk`; `addr` is the
   address asked for, None if it does not parse; `works` whether the socket can be set up if the
   address is free.
   */
  function Added(w: World, port: int, junk: Addr, addr: Option<Addr>, http: bool, works: bool): World
    requires forall id :: id in w.list ==> id in w.all
  {
    if port == 0 then w
    else
      var found := Find(w.all, w.list, port, junk, None);
      if found.Some? then
        if found.value !in w.all || w.all[found.value].open then w else Opened(w, found.value, works)
      else if addr.None? then w
      else Opened(Made(w, port, addr.value, http), w.next, works)
  }

  lemma OpenedKeeps(w: World, id: Id, works: bool)
    requires id in w.all && InvBut(w, Some(id)) && !w.all[id].open && !w.all[id].active
    ensures Inv(Opened(w, id, works))
  {
    hide Books;
    var w1 := With(w, id, w.all[id].(open := false));
    assert w1 == w by { assert w1.all == w.all; }
    if Binds(w, w.all[id], works) {
      var w2 := Opened(w, id, works);
      assert w2.all.Keys == w.all.Keys;
      forall k | k in w2.all ensures RefsOk(w2, k) {
        assert RefsOk(w, k);
      }
    } else {
      assert With(w, id, w.all[id].(open := false, active := false)).all == w.all;
      assert RefsOk(w, id);
      if w.all[id].refs == 0 {
        FreedKeeps(w, id);
      }
    }
  }

  lemma MadeKeeps(w: World, port: int, addr: Addr, http: bool)
    requires Inv(w)
    ensures w.next !in w.all && InvBut(Made(w, port, addr, http), Some(w.next))
  {
    var w' := Made(w, port, addr, http);
    assert w'.all.Keys == w.all.Keys + {w.next};
    forall k | k in w'.all ensures RefsOk(w', k) {
      if k == w.next {
        assert Users(w.clients, k) == {};
      } else {
        assert RefsOk(w, k);
      }
    }
  }

  lemma ListHolds(w: World)
    requires Inv(w)
    ensures forall id :: id in w.list <==> id in w.all
  {
  }

  lemma AddedKeeps(w: World, port: int, junk: Addr, addr: Option<Addr>, http: bool, works: bool)
    requires Inv(w)
    ensures (forall id :: id in w.list <==> id in w.all) && Inv(Added(w, port, junk, addr, http, works))
  {
    hide Books, Opened, Made, RefsOk;
    ListHolds(w);
    if port != 0 {
      FindFinds(w.all, w.list, port, junk, None);
      var found := Find(w.all, w.list, port, junk, None);
      if found.Some? {
        if !w.all[found.value].open {
          OpenedKeeps(w, found.value, works);
        }
      } else if addr.Some? {
        MadeKeeps(w, port, addr.value, http);
        MadeIs(w, port, addr.value, http);
        OpenedKeeps(Made(w, port, addr.value, http), w.next, works);
      }
    }
  }

  lemma MadeIs(w: World, port: int, addr: Addr, http: bool)
    ensures w.next in Made(w, port, addr, http).all
    ensures Made(w, port, addr, http).all[w.next] == Listener(port, addr, false, false, 0, http)
  {
  }

  /** Whatever listens in w' listens in w, on the same address. */
  ghost predicate Fewer(w: World, w': World) {
    forall k :: k in w'.all && w'.all[k].open ==>
      k in w.all && w.all[k].open && Matches(w'.all[k], w.all[k].port, w.all[k].addr)
  }

  lemma FewerListens(w: World, w': World, port: int, addr: Addr)
    requires Fewer(w, w')
    ensures ListensOn(w', port, addr) ==> ListensOn(w, port, addr)
    ensures OneEach(w) ==> OneEach(w')
  {
  }

  /** No two open listeners have the same port and address. */
  ghost predicate OneEach(w: World) {
    forall i, j :: i in w.all && j in w.all && w.all[i].open && w.all[j].open && Matches(w.all[i], w.all[j].port, w.all[j].addr) ==> i == j
  }

  /** What opening a closed listener leaves: it listens, or all listeners that listen are those of before. */
  lemma OpenedIs(w: World, id: Id, works: bool)
    requires id in w.all && !w.all[id].open
    ensures Binds(w, w.all[id], works) ==> Opened(w, id, works).all == w.all[id := w.all[id].(open := true, active := true)]
    ensures !Binds(w, w.all[id], works) ==> Fewer(w, Opened(w, id, works)) && Fewer(Opened(w, id, works), w)
  {
    hide ListensOn;
    var w1 := With(w, id, w.all[id].(open := false));
    assert w1.all == w.all;
  }

  lemma Reopens(w: World, id: Id, port: int, addr: Addr)
    requires id in w.all && !w.all[id].open
    ensures ListensOn(Opened(w, id, true), port, addr) <==> ListensOn(w, port, addr) || Matches(w.all[id], port, addr)
  {
    hide Opened;
    OpenedIs(w, id, true);
    var w' := Opened(w, id, true);
    if Binds(w, w.all[id], true) {
      if Matches(w.all[id], port, addr) {
        assert w'.all[id].open && Matches(w'.all[id], port, addr);
      }
      if k :| k in w.all && w.all[k].open && Matches(w.all[k], port, addr) {
        assert w'.all[k].open && Matches(w'.all[k], port, addr);
      }
    } else {
      FewerListens(w, w', port, addr);
      FewerListens(w', w, port, addr);
    }
  }

  /**
   When the socket can be set up, add_listener makes the server listen on the address asked for
   exactly when its lookup finds nothing under the uninitialised address, or that happens to be
   the address asked for, or something listened there already.
   */
  lemma AddedListensIff(w: World, port: int, junk: Addr, addr: Addr, http: bool)
    requires Inv(w) && port != 0
    ensures forall id :: id in w.list <==> id in w.all
    ensures ListensOn(Added(w, port, junk, Some(addr), http, true), port, addr)
       <==> ListensOn(w, port, addr) || junk == addr || (forall id :: id in w.all ==> !Matches(w.all[id], port, junk))
  {
    hide Opened, Books, RefsOk;
    ListHolds(w);
    FindFinds(w.all, w.list, port, junk, None);
    var found := Find(w.all, w.list, port, junk, None);
    if found.Some? {
      if !w.all[found.value].open {
        Reopens(w, found.value, port, addr);
      }
      assert junk == addr && w.all[found.value].open ==> ListensOn(w, port, addr);
    } else {
      Reopens(Made(w, port, addr, http), w.next, port, addr);
    }
  }

  lemma OpenedOneEach(w: World, id: Id, works: bool)
    requires id in w.all && !w.all[id].open && OneEach(w)
    ensures OneEach(Opened(w, id, works))
  {
    hide Opened;
    OpenedIs(w, id, works);
    var w' := Opened(w, id, works);
    if Binds(w, w.all[id], works) {
      forall k | k in w.all && w.all[k].open ensures !Matches(w.all[k], w.all[id].port, w.all[id].addr) {
        assert !ListensOn(w, w.all[id].port, w.all[id].addr);
      }
    } else {
      FewerListens(w, w', 0, 0);
    }
  }

  lemma MadeFewer(w: World, port: int, addr: Addr, http: bool)
    ensures Fewer(w, Made(w, port, addr, http))
    ensures w.next !in w.all ==> Fewer(Made(w, port, addr, http), w)
  {
  }

  /**
   add_listener never opens an address twice, whatever its lookup hits; where the lookup misses one
   that is listened on, the new listener is freed and the others stay as they were.
   */
  lemma AddedOneEach(w: World, port: int, junk: Addr, addr: Option<Addr>, http: bool, works: bool)
    requires Inv(w) && OneEach(w)
    ensures (forall id :: id in w.list <==> id in w.all) && OneEach(Added(w, port, junk, addr, http, works))
    ensures port != 0 && addr.Some? && ListensOn(w, port, addr.value) && (forall id :: id in w.all ==> !Matches(w.all[id], port, junk))
        ==> Added(w, port, junk, addr, http, works) == w.(freed := w.freed + [w.next], next := w.next + 1)
  {
    hide Opened, Books, RefsOk, Made, OneEach, Fewer, ListensOn;
    ListHolds(w);
    if port != 0 {
      FindFinds(w.all, w.list, port, junk, None);
      var found := Find(w.all, w.list, port, junk, None);
      if found.Some? {
        if !w.all[found.value].open {
          OpenedOneEach(w, found.value, works);
        }
      } else if addr.Some? {
        MadeKeeps(w, port, addr.value, http);
        MadeIs(w, port, addr.value, http);
        MadeFewer(w, port, addr.value, http);
        FewerListens(w, Made(w, port, addr.value, http), port, addr.value);
        OpenedOneEach(Made(w, port, addr.value, http), w.next, works);
        if ListensOn(w, port, addr.value) {
          MadeInVain(w, port, addr.value, http, works);
        }
      }
    }
  }

  /** A new listener for an address that is listened on is freed at once. */
  lemma MadeInVain(w: World, port: int, addr: Addr, http: bool, works: bool)
    requires Inv(w) && ListensOn(w, port, addr)
    ensures w.next in Made(w, port, addr, http).all
    ensures Opened(Made(w, port, addr, http), w.next, works) == w.(freed := w.freed + [w.next], next := w.next + 1)
  {
    hide InvBut, ListensOn, Fewer, Books, Without;
    var w1 := Made(w, port, addr, http);
    NextIsNew(w);
    MadeFewer(w, port, addr, http);
    FewerListens(w1, w, port, addr);
    assert With(w1, w.next, w1.all[w.next].(open := false)).all == w1.all;
    var w2 := With(w1, w.next, w1.all[w.next].(open := false, active := false));
    assert w2.all - {w.next} == w.all;
  }

  lemma NextIsNew(w: World)
    requires Inv(w)
    ensures w.next !in w.all && Without([w.next] + w.list, w.next) == w.list
  {
    assert ([w.next] + w.list)[1..] == w.list;
    WithoutStranger(w.list, w.next);
  }

  /** The loop of close_listeners over the rest of the list. */
  function AllClosed(w: World, todo: seq<Id>): World
    decreases |todo|
  {
    if todo == [] then w
    else if todo[0] in w.all && !w.all[todo[0]].http then AllClosed(Closed(w, todo[0]), todo[1..])
    else AllClosed(w, todo[1..])
  }

  /** What close_listeners leaves of a listener. */
  ghost predicate Retired(w: World, id: Id) {
    id in w.all && !w.all[id].http ==> !w.all[id].open && !w.all[id].active && w.all[id].refs > 0
  }

  lemma ClosedRetires(w: World, id: Id, k: Id)
    requires Inv(w) && id in w.all
    ensures k == id || Retired(w, k) ==> Retired(Closed(w, id), k)
    ensures Closed(w, id).all.Keys <= w.all.Keys && (forall x :: x in Closed(w, id).all ==> Closed(w, id).all[x].http == w.all[x].http)
  {
    RefsCover(w, id);
  }

  /** After close_listeners every listener that is left and not for HTTP is closed and still referenced. */
  lemma {:induction false} AllClosedRetires(w: World, todo: seq<Id>)
    requires Inv(w) && forall id :: id in w.all ==> id in todo || Retired(w, id)
    ensures Inv(AllClosed(w, todo)) && forall id :: id in AllClosed(w, todo).all ==> Retired(AllClosed(w, todo), id)
    decreases |todo|
  {
    hide Books, RefsOk, Closed, Retired;
    if todo != [] {
      var w' := if todo[0] in w.all && !w.all[todo[0]].http then Closed(w, todo[0]) else w;
      if todo[0] in w.all && !w.all[todo[0]].http {
        ClosedKeeps(w, todo[0]);
      } else {
        HttpRetired(w, todo[0]);
      }
      forall id | id in w'.all ensures id in todo[1..] || Retired(w', id) {
        if todo[0] in w.all && !w.all[todo[0]].http {
          ClosedRetires(w, todo[0], id);
        }
        assert id in todo ==> id == todo[0] || id in todo[1..];
      }
      AllClosedRetires(w', todo[1..]);
    }
  }

  lemma HttpRetired(w: World, id: Id)
    requires id in w.all ==> w.all[id].http
    ensures Retired(w, id)
  {
  }

  /** The lookup under the uninitialised address can hit another listener: nothing is opened. */
  lemma AddCanMiss() returns (w: World)
    ensures Inv(w) && !ListensOn(w, 6667, 9) && (forall id :: id in w.list ==> id in w.all)
    ensures !ListensOn(Added(w, 6667, 5, Some(9), false, true), 6667, 9)
  {
    hide Books, RefsOk;
    NobodyInv();
    AddedKeeps(NOBODY, 6667, 0, Some(5), false, true);
    w := Added(NOBODY, 6667, 0, Some(5), false, true);
    assert w.all == map[0 := Listener(6667, 5, true, true, 0, false)];
    assert Matches(w.all[0], 6667, 5);
    AddedListensIff(w, 6667, 5, 9, false);
  }

  const NOBODY := World(map[], [], map[], multiset{}, [], 0)

  lemma NobodyInv()
    ensures Inv(NOBODY)
  {
  }

  /** On whatever the stack holds, a listener for the address is there afterwards exactly if none on the port has another address, or one was there. */
  lemma AddedListensAlways(w: World, port: int, addr: Addr, http: bool)
    requires Inv(w) && port != 0
    ensures forall id :: id in w.list <==> id in w.all
    ensures (forall junk :: ListensOn(Added(w, port, junk, Some(addr), http, true), port, addr))
       <==> ListensOn(w, port, addr) || forall id :: id in w.all && w.all[id].port == port ==> w.all[id].addr == addr
  {
    hide InvBut, Added;
    ListHolds(w);
    forall junk ensures ListensOn(Added(w, port, junk, Some(addr), http, true), port, addr)
         <==> ListensOn(w, port, addr) || junk == addr || (forall id :: id in w.all ==> !Matches(w.all[id], port, junk))
    {
      AddedListensIff(w, port, junk, addr, http);
    }
    if id :| id in w.all && w.all[id].port == port && w.all[id].addr != addr {
      var junk := w.all[id].addr;
      assert Matches(w.all[id], port, junk);
      assert ListensOn(Added(w, port, junk, Some(addr), http, true), port, addr) <==> ListensOn(w, port, addr);
    }
  }

  // ------------------------------------------------------------------------------------
  // Runs
  // ------------------------------------------------------------------------------------

  datatype Step =
    | Accept(id: Id, c: Client, setup: Setup)
    | Exit(c: Client)
    | HttpGone(c: Client)
    | Add(port: int, junk: Addr, addr: Option<Addr>, http: bool, works: bool)
    | Close(l: Id)
    | CloseAll

  /** One step; those that cannot happen change nothing. */
  function Stepped(w: World, s: Step): World {
    match s {
      case Accept(id, c, setup) =>
        if Accepts(w, id, c) then Connected(w, id, c, setup) else w
      case Exit(c) => if Through(w, c, false) then Exited(w, c) else w
      case HttpGone(c) => if Through(w, c, true) then Lost(w, c) else w
      case Add(port, junk, addr, http, works) =>
        if forall id :: id in w.list ==> id in w.all then Added(w, port, junk, addr, http, works) else w
      case Close(l) => if l in w.all then Closed(w, l) else w
      case CloseAll => AllClosed(w, w.list)
    }
  }

  function Ran(w: World, steps: seq<Step>): World
    decreases |steps|
  {
    if steps == [] then w else Stepped(Ran(w, steps[..|steps| - 1]), steps[|steps| - 1])
  }

  lemma RanMore(w: World, steps: seq<Step>, k: nat)
    requires k < |steps|
    ensures Ran(w, steps[..k + 1]) == Stepped(Ran(w, steps[..k]), steps[k])
  {
    assert steps[..k + 1][..k] == steps[..k];
  }

  /**
   How many references to the listener the step leaves behind: of a client whose SSL setup fails,
   of an HTTP client that goes away, and of one that is handed back and counted again.
   */
  function LostBy(w: World, s: Step, id: Id): nat {
    match s {
      case Accept(l, c, setup) =>
        if !Accepts(w, l, c) then 0
        else (if c in w.clients && w.clients[c] == id then 1 else 0) + (if l == id && setup.SslFails? then 1 else 0)
      case HttpGone(c) => if Through(w, c, true) && w.clients[c] == id then 1 else 0
      case _ => 0
    }
  }

  lemma ClosedLeaks(w: World, id: Id)
    requires id in w.all
    ensures Closed(w, id).leaked == w.leaked
  {
  }

  lemma {:induction false} AllClosedLeaks(w: World, todo: seq<Id>)
    ensures AllClosed(w, todo).leaked == w.leaked
    decreases |todo|
  {
    hide Closed;
    if todo != [] {
      if todo[0] in w.all && !w.all[todo[0]].http {
        ClosedLeaks(w, todo[0]);
        AllClosedLeaks(Closed(w, todo[0]), todo[1..]);
      } else {
        AllClosedLeaks(w, todo[1..]);
      }
    }
  }

  lemma AddedLeaks(w: World, port: int, junk: Addr, addr: Option<Addr>, http: bool, works: bool)
    requires forall id :: id in w.list ==> id in w.all
    ensures Added(w, port, junk, addr, http, works).leaked == w.leaked
  {
    hide Find;
  }

  /** A step keeps the invariant, and leaves exactly the references behind that LostBy says. */
  lemma SteppedKeeps(w: World, s: Step)
    requires Inv(w)
    ensures Inv(Stepped(w, s)) && forall id :: Stepped(w, s).leaked[id] == w.leaked[id] + LostBy(w, s, id)
  {
    hide InvBut, RefsOk, Connected, Exited, Added, AllClosed, Closed;
    ListHolds(w);
    match s {
      case Accept(id, c, setup) =>
        if Accepts(w, id, c) { ConnectedKeeps(w, id, c, setup); }
      case Exit(c) =>
        if Through(w, c, false) {
          ExitedKeeps(w, c);
          ExitedLeaks(w, c);
        }
      case HttpGone(c) => if Through(w, c, true) { LostKeeps(w, c); }
      case Add(port, junk, addr, http, works) =>
        AddedKeeps(w, port, junk, addr, http, works);
        AddedLeaks(w, port, junk, addr, http, works);
      case Close(l) =>
        if l in w.all {
          ClosedKeeps(w, l);
          ClosedLeaks(w, l);
        }
      case CloseAll =>
        AllRetire(w);
        AllClosedLeaks(w, w.list);
    }
  }

  lemma ExitedLeaks(w: World, c: Client)
    requires c in w.clients && w.clients[c] in w.all
    ensures Exited(w, c).leaked == w.leaked
  {
  }

  /** The whole list is closed. */
  lemma AllRetire(w: World)
    requires Inv(w)
    ensures Inv(AllClosed(w, w.list)) && forall id :: id in AllClosed(w, w.list).all ==> Retired(AllClosed(w, w.list), id)
  {
    hide Books, RefsOk, Closed, Retired;
    ListHolds(w);
    AllClosedRetires(w, w.list);
  }

  lemma ClosedFewer(w: World, id: Id)
    requires id in w.all
    ensures Fewer(w, Closed(w, id))
  {
  }

  lemma {:induction false} AllClosedFewer(w: World, todo: seq<Id>)
    ensures Fewer(w, AllClosed(w, todo))
    decreases |todo|
  {
    hide Closed;
    if todo != [] {
      if todo[0] in w.all && !w.all[todo[0]].http {
        ClosedFewer(w, todo[0]);
        AllClosedFewer(Closed(w, todo[0]), todo[1..]);
      } else {
        AllClosedFewer(w, todo[1..]);
      }
    }
  }

  lemma ConnectedFewer(w: World, id: Id, c: Client, setup: Setup)
    requires Accepts(w, id, c)
    ensures Fewer(w, Connected(w, id, c, setup))
  {
    hide Through;
  }

  lemma ExitedFewer(w: World, c: Client)
    requires c in w.clients && w.clients[c] in w.all
    ensures Fewer(w, Exited(w, c))
  {
  }

  lemma SameFewer(w: World, w': World)
    ensures w'.all == w.all ==> Fewer(w, w')
  {
  }

  /** No step makes two sockets listen on one address. */
  lemma SteppedOneEach(w: World, s: Step)
    requires Inv(w) && OneEach(w)
    ensures OneEach(Stepped(w, s))
  {
    hide InvBut, OneEach, Fewer, Added, AllClosed, Closed, Connected, Exited;
    ListHolds(w);
    if s.Add? {
      AddedOneEach(w, s.port, s.junk, s.addr, s.http, s.works);
    } else {
      match s {
        case Accept(id, c, setup) => if Accepts(w, id, c) { ConnectedFewer(w, id, c, setup); }
        case Exit(c) => if Through(w, c, false) { ExitedFewer(w, c); }
        case Close(l) => if l in w.all { ClosedFewer(w, l); }
        case CloseAll => AllClosedFewer(w, w.list);
        case _ =>
      }
      SameFewer(w, Stepped(w, s));
      FewerListens(w, Stepped(w, s), 0, 0);
    }
  }

  // ------------------------------------------------------------------------------------
  // What a step does
  // ------------------------------------------------------------------------------------

  /** The listener is closed: it stays, closed and inactive, if it is referenced, and is freed otherwise. */
  ghost predicate Closes(w: World, id: Id, w': World) {
    && id in w.all && w'.clients == w.clients && w'.leaked == w.leaked && w'.next == w.next
    && if w.all[id].refs == 0 then w'.all == w.all - {id} && w'.list == Without(w.list, id) && w'.freed == w.freed + [id]
       else w'.all == w.all[id := w.all[id].(open := false, active := false)] && w'.list == w.list && w'.freed == w.freed
  }

  /** The listeners of `ids` that are not for HTTP are closed; all others stay as they are. */
  ghost predicate ClosesAll(w: World, ids: seq<Id>, w': World) {
    && w'.clients == w.clients && w'.leaked == w.leaked && w'.next == w.next && w'.all.Keys <= w.all.Keys
    && w'.list == Kept(w.list, w'.all.Keys)
    && (forall id :: id in w.all ==> (id !in w'.all <==> id in ids && !w.all[id].http && w.all[id].refs == 0))
    && (forall id :: id in w'.all ==>
          w'.all[id] == if id in ids && !w.all[id].http then w.all[id].(open := false, active := false) else w.all[id])
  }

  /** A listener that is closed is opened, if the socket can be set up and nothing listens on its address; or it is closed again. */
  ghost predicate Opens(w: World, id: Id, works: bool, w': World) {
    && id in w.all
    && if works && forall k :: k in w.all && w.all[k].open ==> w.all[k].port != w.all[id].port || w.all[k].addr != w.all[id].addr
       then w' == w.(all := w.all[id := w.all[id].(open := true, active := true)]) else Closes(w, id, w')
  }

  /** The last listener on the list for the port and address. */
  ghost predicate LastMatch(all: map<Id, Listener>, list: seq<Id>, k: nat, port: int, addr: Addr) {
    && k < |list| && list[k] in all && all[list[k]].port == port && all[list[k]].addr == addr
    && forall j :: k < j < |list| && list[j] in all ==> all[list[j]].port != port || all[list[j]].addr != addr
  }

  /** Whatever the uninitialised address hits is left alone if it is open, and opened if it is closed. */
  ghost predicate Adds(w: World, port: int, junk: Addr, addr: Option<Addr>, http: bool, works: bool, w': World) {
    if port == 0 || exists id :: id in w.all && w.all[id].open && w.all[id].port == port && w.all[id].addr == junk then w' == w
    else if exists id :: id in w.all && w.all[id].port == port && w.all[id].addr == junk then
      exists k: nat :: LastMatch(w.all, w.list, k, port, junk) && Opens(w, w.list[k], works, w')
    else if addr.None? then w' == w
    else
      Opens(World(w.all[w.next := Listener(port, addr.value, false, false, 0, http)], [w.next] + w.list, w.clients, w.leaked, w.freed,
                  w.next + 1), w.next, works, w')
  }

  /** The client is there, and its listener is for HTTP or not. */
  ghost predicate Sits(w: World, c: Client, http: bool) {
    c in w.clients && w.clients[c] in w.all && w.all[w.clients[c]].http == http
  }

  /** Each step does this, and nothing else. */
  ghost predicate Follows(w: World, s: Step, w': World) {
    match s {
      case Accept(id, c, setup) =>
        if id in w.all && w.all[id].open && (c !in w.clients || (w.all[id].http && Sits(w, c, true))) then
          && w'.all == w.all[id := w.all[id].(refs := w.all[id].refs + 1)] && w'.list == w.list && w'.freed == w.freed && w'.next == w.next
          && w'.clients == (if setup.Works? then w.clients[c := id] else w.clients - {c})
          && forall k ::
               w'.leaked[k] == w.leaked[k] + (if c in w.clients && w.clients[c] == k then 1 else 0) + (if setup.SslFails? && k == id then 1 else 0)
        else w' == w
      case Exit(c) =>
        if Sits(w, c, false) then
          var id := w.clients[c];
          && w'.clients == w.clients - {c} && w'.leaked == w.leaked && w'.next == w.next
          && if w.all[id].refs == 1 && !w.all[id].active
             then w'.all == w.all - {id} && w'.list == Without(w.list, id) && w'.freed == w.freed + [id]
             else w'.all == w.all[id := w.all[id].(refs := w.all[id].refs - 1)] && w'.list == w.list && w'.freed == w.freed
        else w' == w
      case HttpGone(c) =>
        if Sits(w, c, true) then w' == w.(clients := w.clients - {c}, leaked := w.leaked + multiset{w.clients[c]}) else w' == w
      case Add(port, junk, addr, http, works) => Adds(w, port, junk, addr, http, works, w')
      case Close(l) => if l in w.all then Closes(w, l, w') else w' == w
      case CloseAll => ClosesAll(w, w.list, w')
    }
  }

  lemma ClosedCloses(w: World, id: Id)
    requires id in w.all
    ensures Closes(w, id, Closed(w, id))
  {
    var l := w.all[id].(open := false, active := false);
    assert w.all[id := l] - {id} == w.all - {id};
  }

  lemma ExitedIs(w: World, c: Client)
    requires Sits(w, c, false)
    ensures Follows(w, Exit(c), Exited(w, c))
  {
    var id := w.clients[c];
    var l := w.all[id].(refs := w.all[id].refs - 1);
    assert w.all[id := l] - {id} == w.all - {id};
  }

  lemma AcceptedIs(w: World, id: Id, c: Client, setup: Setup)
    requires Accepts(w, id, c)
    ensures Follows(w, Accept(id, c, setup), Connected(w, id, c, setup))
  {
    hide Connected;
    ConnectedIs(w, id, c, setup);
    assert w.clients[c := id] - {c} == w.clients - {c};
  }

  lemma OpenedOpens(w: World, id: Id, works: bool)
    requires id in w.all && !w.all[id].open
    ensures Opens(w, id, works, Opened(w, id, works))
  {
    hide Closes, Closed;
    var w1 := With(w, id, w.all[id].(open := false));
    assert w1.all == w.all;
    ClosedCloses(w, id);
  }

  /** The closed match that find_listener returns is the last one. */
  lemma {:induction false} FindLast(all: map<Id, Listener>, list: seq<Id>, port: int, addr: Addr, closed: Option<Id>)
    requires forall id :: id in list ==> id in all
    ensures var r := Find(all, list, port, addr, closed);
            r.Some? && r.value in all && !all[r.value].open ==>
              || (r == closed && forall id :: id in list ==> !Matches(all[id], port, addr))
              || exists k: nat :: LastMatch(all, list, k, port, addr) && list[k] == r.value
    decreases |list|
  {
    if list != [] {
      var hit := Matches(all[list[0]], port, addr);
      if !hit || !all[list[0]].open {
        var next := if hit then Some(list[0]) else closed;
        var r := Find(all, list[1..], port, addr, next);
        FindLast(all, list[1..], port, addr, next);
        if r.Some? && r.value in all && !all[r.value].open {
          if k: nat :| LastMatch(all, list[1..], k, port, addr) && list[1..][k] == r.value {
            assert list[k + 1] == r.value;
            assert forall j :: k + 1 < j < |list| ==> list[j] == list[1..][j - 1];
            assert LastMatch(all, list, k + 1, port, addr);
          } else {
            assert forall j :: 0 < j < |list| ==> list[j] in list[1..];
            assert hit ==> LastMatch(all, list, 0, port, addr);
          }
        }
      }
    }
  }

  lemma AddedAdds(w: World, port: int, junk: Addr, addr: Option<Addr>, http: bool, works: bool)
    requires Inv(w)
    ensures (forall id :: id in w.list <==> id in w.all) && Adds(w, port, junk, addr, http, works, Added(w, port, junk, addr, http, works))
  {
    hide InvBut, Opens, Opened, Find;
    ListHolds(w);
    FindFinds(w.all, w.list, port, junk, None);
    var found := Find(w.all, w.list, port, junk, None);
    if port != 0 {
      if found.None? {
        assert forall id :: id in w.all ==> !Matches(w.all[id], port, junk);
        if addr.Some? {
          OpenedOpens(Made(w, port, addr.value, http), w.next, works);
        }
      } else if w.all[found.value].open {
        assert Added(w, port, junk, addr, http, works) == w;
      } else {
        FindLast(w.all, w.list, port, junk, None);
        var k: nat :| LastMatch(w.all, w.list, k, port, junk) && w.list[k] == found.value;
        OpenedOpens(w, found.value, works);
        assert LastMatch(w.all, w.list, k, port, junk) && Opens(w, w.list[k], works, Opened(w, found.value, works));
      }
    }
  }

  lemma {:induction false} AllClosedCloses(w: World, todo: seq<Id>)
    requires Inv(w)
    ensures ClosesAll(w, todo, AllClosed(w, todo))
    decreases |todo|
  {
    hide InvBut, Closed, ClosesAll;
    if todo == [] {
      NoneClosed(w);
    } else if todo[0] in w.all && !w.all[todo[0]].http {
      ClosedKeeps(w, todo[0]);
      AllClosedCloses(Closed(w, todo[0]), todo[1..]);
      ClosedFirst(w, todo, AllClosed(w, todo));
    } else {
      AllClosedCloses(w, todo[1..]);
      SkippedFirst(w, todo, AllClosed(w, todo));
    }
  }

  lemma NoneClosed(w: World)
    requires Inv(w)
    ensures ClosesAll(w, [], w)
  {
    ListHolds(w);
    KeptAll(w.list, w.all.Keys);
  }

  lemma SkippedFirst(w: World, todo: seq<Id>, w': World)
    requires todo != [] && (todo[0] in w.all ==> w.all[todo[0]].http) && ClosesAll(w, todo[1..], w')
    ensures ClosesAll(w, todo, w')
  {
    assert forall id :: id in todo <==> id == todo[0] || id in todo[1..];
  }

  lemma ClosedFirst(w: World, todo: seq<Id>, w': World)
    requires Inv(w) && todo != [] && todo[0] in w.all && !w.all[todo[0]].http && ClosesAll(Closed(w, todo[0]), todo[1..], w')
    ensures ClosesAll(w, todo, w')
  {
    hide InvBut, Closed, Kept, Without;
    var w1 := Closed(w, todo[0]);
    ClosedCloses(w, todo[0]);
    ListHolds(w);
    assert forall id :: id in todo <==> id == todo[0] || id in todo[1..];
    if todo[0] !in w1.all {
      WithoutIsKept(w.list, todo[0], w.all.Keys);
      KeptTwice(w.list, w.all.Keys - {todo[0]}, w'.all.Keys);
    }
  }

  /** Every step is as described. */
  lemma SteppedFollows(w: World, s: Step)
    requires Inv(w)
    ensures Follows(w, s, Stepped(w, s))
  {
    hide InvBut, RefsOk, Connected, Exited, Added, AllClosed, Closed, Closes, ClosesAll, Adds;
    match s {
      case Accept(id, c, setup) => if Accepts(w, id, c) { AcceptedIs(w, id, c, setup); }
      case Exit(c) => if Through(w, c, false) { ExitedIs(w, c); }
      case HttpGone(c) =>
      case Add(port, junk, addr, http, works) => AddedAdds(w, port, junk, addr, http, works);
      case Close(l) => if l in w.all { ClosedCloses(w, l); }
      case CloseAll => AllClosedCloses(w, w.list);
    }
  }

  /** Some step of the run leaves a reference to the listener behind. */
  ghost predicate LosesIn(w: World, steps: seq<Step>, id: Id) {
    exists k :: 0 <= k < |steps| && LostBy(Ran(w, steps[..k]), steps[k], id) > 0
  }

  lemma {:induction false} RanKeeps(w: World, steps: seq<Step>)
    requires Inv(w)
    ensures Inv(Ran(w, steps)) && w.leaked <= Ran(w, steps).leaked && (OneEach(w) ==> OneEach(Ran(w, steps)))
    ensures forall id :: id in Ran(w, steps).leaked <==> id in w.leaked || LosesIn(w, steps, id)
    decreases |steps|
  {
    hide Inv, OneEach, Stepped, LostBy;
    if steps != [] {
      var n := |steps| - 1;
      var front := steps[..n];
      RanKeeps(w, front);
      SteppedKeeps(Ran(w, front), steps[n]);
      if OneEach(w) {
        SteppedOneEach(Ran(w, front), steps[n]);
      }
      forall id ensures LosesIn(w, steps, id) <==> LosesIn(w, front, id) || LostBy(Ran(w, front), steps[n], id) > 0 {
        LosesInMore(w, steps, id);
      }
    }
  }

  lemma LosesInMore(w: World, steps: seq<Step>, id: Id)
    requires steps != []
    ensures LosesIn(w, steps, id) <==>
            LosesIn(w, steps[..|steps| - 1], id) || LostBy(Ran(w, steps[..|steps| - 1]), steps[|steps| - 1], id) > 0
  {
    hide Ran, LostBy;
    var n := |steps| - 1;
    var front := steps[..n];
    assert forall k :: 0 <= k < n ==> front[..k] == steps[..k] && front[k] == steps[k];
    if LosesIn(w, front, id) {
      var k :| 0 <= k < n && LostBy(Ran(w, front[..k]), front[k], id) > 0;
      assert LostBy(Ran(w, steps[..k]), steps[k], id) > 0;
    }
    if LosesIn(w, steps, id) {
      var k :| 0 <= k < |steps| && LostBy(Ran(w, steps[..k]), steps[k], id) > 0;
      assert k < n ==> LostBy(Ran(w, front[..k]), front[k], id) > 0;
    }
  }

  /**
   After any run from the start, the count of a listener is the number of its clients exactly if
   no connection through it failed in its SSL setup, no HTTP client of it went away, and none was
   handed back for another connection.
   */
  lemma RefsExactIff(steps: seq<Step>, id: Id)
    requires id in Ran(NOBODY, steps).all
    ensures var w := Ran(NOBODY, steps);
            && w.all[id].refs >= |Users(w.clients, id)|
            && (w.all[id].refs == |Users(w.clients, id)| <==> !LosesIn(NOBODY, steps, id))
  {
    NobodyInv();
    RanKeeps(NOBODY, steps);
    assert RefsOk(Ran(NOBODY, steps), id);
  }

  /** A listener that has lost a reference so is never freed, whatever follows. */
  lemma LeakedStays(w: World, steps: seq<Step>, id: Id)
    requires Inv(w) && id in w.leaked
    ensures id in Ran(w, steps).all && Ran(w, steps).all[id].refs > 0 && id !in Ran(w, steps).freed
  {
    RanKeeps(w, steps);
    assert RefsOk(Ran(w, steps), id);
  }

  /** The first listener, asked for on address 5. */
  lemma FirstAdded(port: int, http: bool)
    requires port != 0
    ensures Ran(NOBODY, [Add(port, 0, Some(5), http, true)]) ==
            World(map[0 := Listener(port, 5, true, true, 0, http)], [0], map[], multiset{}, [], 1)
  {
    var s := Add(port, 0, Some(5), http, true);
    assert [s][..0] == [];
    var w := Stepped(NOBODY, s);
    assert w.all == map[0 := Listener(port, 5, true, true, 0, http)];
  }

  /** One failed SSL setup is enough: no client, but a reference, also after the listeners are closed. */
  lemma OneFailedSetupLeaks()
    ensures var w := Ran(NOBODY, [Add(6667, 0, Some(5), false, true), Accept(0, 1, SslFails), CloseAll]);
            0 in w.all && w.clients == map[] && w.all[0].refs == 1 && !w.all[0].open
  {
    var steps := [Add(6667, 0, Some(5), false, true), Accept(0, 1, SslFails), CloseAll];
    FirstAdded(6667, false);
    RanMore(NOBODY, steps, 1);
    RanMore(NOBODY, steps, 2);
    var w1 := Ran(NOBODY, steps[..1]);
    assert steps[..1] == [steps[0]] && steps[..3] == steps;
    var w2 := Stepped(w1, steps[1]);
    assert w2.all == map[0 := Listener(6667, 5, true, true, 1, false)] && w2.list == [0] && w2.clients == map[];
    OnlyClosed(w2);
  }

  lemma OnlyClosed(w: World)
    requires w.list == [0] && 0 in w.all && w.all[0].refs == 1 && !w.all[0].http
    ensures AllClosed(w, w.list) == With(w, 0, w.all[0].(open := false, active := false))
  {
    assert w.list[1..] == [];
  }

  /** One HTTP client that connects again is counted twice; no setup failed and nobody went away. */
  lemma OneHandedBackLeaks()
    ensures var w := Ran(NOBODY, [Add(80, 0, Some(5), true, true), Accept(0, 1, Works), Accept(0, 1, Works)]);
            0 in w.all && w.all[0].refs == 2 && w.clients == map[1 := 0] && Users(w.clients, 0) == {1}
  {
    var steps := [Add(80, 0, Some(5), true, true), Accept(0, 1, Works), Accept(0, 1, Works)];
    FirstAdded(80, true);
    RanMore(NOBODY, steps, 1);
    RanMore(NOBODY, steps, 2);
    var w1 := Ran(NOBODY, steps[..1]);
    assert steps[..1] == [steps[0]] && steps[..3] == steps;
    var w2 := Stepped(w1, steps[1]);
    assert w2.all == map[0 := Listener(80, 5, true, true, 1, true)] && w2.clients == map[1 := 0];
  }

  // ------------------------------------------------------------------------------------
  // The code
  // ------------------------------------------------------------------------------------

  class Server {
    var all: map<Id, Listener>
    var list: seq<Id>
    var clients: map<Client, Id>
    var leaked: multiset<Id>
    var freed: seq<Id>
    var next: Id

    ghost function W(): World
      reads this
    {
      World(all, list, clients, leaked, freed, next)
    }

    constructor ()
      ensures Inv(W()) && OneEach(W()) && W() == NOBODY
    {
      all, list, clients, leaked, freed, next := map[], [], map[], multiset{}, [], 0;
      new;
      NobodyInv();
    }

    /** free_listener */
    method Free(id: Id)
      modifies this
      ensures W() == Freed(old(W()), id)
    {
      var rest: seq<Id> := [];
      var i := |list|;
      while i > 0
        invariant 0 <= i <= |list| && rest == Without(list[i..], id) && W() == old(W())
      {
        i := i - 1;
        assert list[i..] == [list[i]] + list[i + 1..];
        if list[i] != id {
          rest := [list[i]] + rest;
        }
      }
      assert list[0..] == list;
      list := rest;
      all := all - {id};
      freed := freed + [id];
    }

    /** add_connection from where the client is known: counting, and what becomes of the client */
    method AddConnection(id: Id, c: Client, setup: Setup)
      requires Inv(W()) && Accepts(W(), id, c)
      modifies this
      ensures Inv(W()) && W() == Connected(old(W()), id, c, setup) && Follows(old(W()), Accept(id, c, setup), W())
    {
      hide InvBut, Connected, Follows;
      AcceptedIs(W(), id, c, setup);
      ConnectedKeeps(W(), id, c, setup);
      ConnectedIs(W(), id, c, setup);
      if c in clients {
        leaked := leaked + multiset{clients[c]};
      }
      clients := clients[c := id];
      all := all[id := all[id].(refs := all[id].refs + 1)];
      if setup.SslFails? {
        leaked := leaked + multiset{clients[c]};
        clients := clients - {c};
      }
    }

    /** The end of exit_client */
    method ExitClient(c: Client)
      requires Inv(W()) && c in clients
      modifies this
      ensures old(clients[c] in all) && Inv(W()) && W() == Exited(old(W()), c)
      ensures Follows(old(W()), Exit(c), W()) || old(all[clients[c]].http)
    {
      hide InvBut, Follows;
      ExitedKeeps(W(), c);
      if !all[clients[c]].http {
        ExitedIs(W(), c);
      }
      var id := clients[c];
      all := all[id := all[id].(refs := all[id].refs - 1)];
      clients := clients - {c};
      if all[id].refs == 0 && !all[id].active {
        Free(id);
      }
    }

    /** close_listener */
    method CloseListener(id: Id)
      requires id in all
      modifies this
      ensures W() == Closed(old(W()), id) && Closes(old(W()), id, W())
    {
      ClosedCloses(W(), id);
      if all[id].open {
        all := all[id := all[id].(open := false)];
      }
      all := all[id := all[id].(active := false)];
      assert all == old(all)[id := old(all)[id].(open := false, active := false)];
      if all[id].refs != 0 {
        return;
      }
      Free(id);
    }

    /** close_listeners */
    method CloseListeners()
      requires Inv(W())
      modifies this
      ensures Inv(W()) && W() == AllClosed(old(W()), old(list)) && ClosesAll(old(W()), old(list), W())
      ensures forall id :: id in all ==> Retired(W(), id)
    {
      hide InvBut, Closed, Retired, ClosesAll;
      AllRetire(W());
      AllClosedCloses(W(), list);
      var todo := list;
      for i := 0 to |todo|
        invariant AllClosed(W(), todo[i..]) == AllClosed(old(W()), todo)
      {
        assert todo[i..][0] == todo[i] && todo[i..][1..] == todo[i + 1..];
        if todo[i] in all && !all[todo[i]].http {
          CloseListener(todo[i]);
        }
      }
    }

    /** find_listener */
    method FindListener(port: int, addr: Addr) returns (r: Option<Id>)
      requires forall id :: id in list ==> id in all
      ensures r == Find(all, list, port, addr, None)
    {
      var lastClosed: Option<Id> := None;
      for i := 0 to |list|
        invariant Find(all, list[i..], port, addr, lastClosed) == Find(all, list, port, addr, None)
      {
        assert list[i..][0] == list[i] && list[i..][1..] == list[i + 1..];
        if Matches(all[list[i]], port, addr) {
          if !all[list[i]].open {
            lastClosed := Some(list[i]);
          } else {
            return Some(list[i]);
          }
        }
      }
      return lastClosed;
    }

    /** The end of add_listener */
    method OpenListener(id: Id, works: bool)
      requires id in all
      modifies this
      ensures W() == Opened(old(W()), id, works)
    {
      hide Closed;
      all := all[id := all[id].(open := false)];
      if works && !exists k :: k in all && all[k].open && Matches(all[k], all[id].port, all[id].addr) {
        all := all[id := all[id].(open := true)];
        all := all[id := all[id].(active := true)];
        assert all[id] == old(all)[id].(open := true, active := true);
      } else {
        CloseListener(id);
      }
    }

    /** add_listener */
    method AddListener(port: int, junk: Addr, addr: Option<Addr>, http: bool, works: bool)
      requires Inv(W())
      modifies this
      ensures (forall id :: id in old(list) ==> id in old(all)) && Inv(W()) && W() == Added(old(W()), port, junk, addr, http, works)
      ensures Adds(old(W()), port, junk, addr, http, works, W())
    {
      hide InvBut, Opened, Find, Adds;
      AddedAdds(W(), port, junk, addr, http, works);
      ListHolds(W());
      AddedKeeps(W(), port, junk, addr, http, works);
      FindFinds(all, list, port, junk, None);
      if port == 0 {
        return;
      }
      var found := FindListener(port, junk);
      var id: Id;
      if found.Some? {
        id := found.value;
        if all[id].open {
          return;
        }
      } else {
        if addr.None? {
          return;
        }
        id := next;
        all := all[id := Listener(port, addr.value, false, false, 0, http)];
        list := [id] + list;
        next := next + 1;
      }
      OpenListener(id, works);
    }

    method Do(s: Step)
      requires Inv(W())
      modifies this
      ensures Inv(W()) && W() == Stepped(old(W()), s) && Follows(old(W()), s, W())
    {
      hide InvBut, Added, Exited, Connected, AllClosed, Closed, Follows;
      ListHolds(W());
      SteppedKeeps(W(), s);
      SteppedFollows(W(), s);
      match s {
        case Accept(id, c, setup) =>
          if id in all && all[id].open && (c !in clients || (all[id].http && clients[c] in all && all[clients[c]].http)) {
            AddConnection(id, c, setup);
          }
        case Exit(c) => if c in clients && clients[c] in all && !all[clients[c]].http { ExitClient(c); }
        case HttpGone(c) =>
          if c in clients && clients[c] in all && all[clients[c]].http {
            leaked := leaked + multiset{clients[c]};
            clients := clients - {c};
          }
        case Add(port, junk, addr, http, works) => AddListener(port, junk, addr, http, works);
        case Close(l) => if l in all { CloseListener(l); }
        case CloseAll => CloseListeners();
      }
    }

    /**
     Any run: every count covers the clients of its listener, listeners are freed once and only
     without references, and no client points to a listener that was freed. References that were
     lost stay lost, and their listeners are never freed. No address is listened on twice. `worlds`
     are the states before, between and after the steps.
     */
    method Run(steps: seq<Step>) returns (ghost worlds: seq<World>)
      requires Inv(W())
      modifies this
      ensures Inv(W()) && W() == Ran(old(W()), steps)
      ensures |worlds| == |steps| + 1 && worlds[0] == old(W()) && worlds[|steps|] == W()
      ensures forall i :: 0 <= i < |steps| ==> Inv(worlds[i]) && Follows(worlds[i], steps[i], worlds[i + 1])
      ensures old(leaked) <= leaked && forall id :: id in old(leaked) ==> id in all && id !in freed
      ensures old(OneEach(W())) ==> OneEach(W())
    {
      hide Inv, OneEach, Stepped, Follows;
      assert steps[..0] == [];
      worlds := [W()];
      for i := 0 to |steps|
        invariant Inv(W()) && W() == Ran(old(W()), steps[..i])
        invariant |worlds| == i + 1 && worlds[0] == old(W()) && worlds[i] == W()
        invariant forall k :: 0 <= k < i ==> Inv(worlds[k]) && Follows(worlds[k], steps[k], worlds[k + 1])
      {
        RanMore(old(W()), steps, i);
        Do(steps[i]);
        worlds := worlds + [W()];
      }
      assert steps[..|steps|] == steps;
      RanKeeps(old(W()), steps);
      forall id | id in old(leaked) ensures id in all && id !in freed {
        LeakedStays(old(W()), steps, id);
      }
    }
  }
}
