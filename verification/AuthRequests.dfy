/**
 Host name and ident lookups for new connections (server/s_auth.c). Each connection has a request
 that waits for a resolver reply and for an ident reply, and ends when both are done, when its
 deadline has passed, or when the client exits.
 */
module AuthRequests {
  import opened LinkedLists

  type Id = nat
  type Client = nat

  const CONNECTTIMEOUT := 30

  /** A struct AuthRequest with its flags. */
  datatype Req = Req(client: Client, fd: Option<nat>, connecting: bool, pending: bool, dns: bool, deadline: int)

  predicate DoingAuth(r: Req) {
    r.connecting || r.pending
  }

  /** What an ident socket calls back: auth_connect_callback or read_auth_reply, with its request. */
  datatype Sock = Connecting(id: Id) | Reading(id: Id)

  /** How a request ended; a release records the request as it was and the time. */
  datatype End = Released(id: Id, r: Req, at: int) | Discarded(id: Id)

  /**
   `live` are the requests that are allocated, `poll` is auth_poll_list, `queries` the resolver
   queries with the request that each will call back, `socks` the open ident sockets.
   */
  datatype World = World(live: map<Id, Req>, poll: seq<Id>, queries: map<Client, Id>, socks: map<nat, Sock>,
                         ended: seq<End>, next: Id)

  // ------------------------------------------------------------------------------------
  // What holds at every point
  // ------------------------------------------------------------------------------------

  /** An ident lookup is under way exactly while there is a socket, which will call this request. */
  ghost predicate ReqOk(queries: map<Client, Id>, socks: map<nat, Sock>, id: Id, r: Req) {
    && (r.fd.Some? <==> DoingAuth(r)) && !(r.connecting && r.pending)
    && (r.fd.Some? ==> r.fd.value in socks && socks[r.fd.value] == if r.connecting then Connecting(id) else Reading(id))
    && (r.dns <==> r.client in queries && queries[r.client] == id)
  }

  ghost predicate SockOk(live: map<Id, Req>, f: nat, k: Sock) {
    k.id in live && live[k.id].fd == Some(f)
  }

  ghost predicate QueryOk(live: map<Id, Req>, c: Client, id: Id) {
    id in live && live[id].client == c && live[id].dns
  }

  /** Whatever can still call back belongs to a request that is not freed, and is what it waits for. */
  ghost predicate CallbackInv(live: map<Id, Req>, queries: map<Client, Id>, socks: map<nat, Sock>) {
    && (forall f :: f in socks ==> SockOk(live, f, socks[f]))
    && (forall c :: c in queries ==> QueryOk(live, c, queries[c]))
  }

  ghost predicate OnePerClient(live: map<Id, Req>) {
    forall i, j :: i in live && j in live && live[i].client == live[j].client ==> i == j
  }

  ghost predicate Links(live: map<Id, Req>, queries: map<Client, Id>, socks: map<nat, Sock>) {
    && (forall id :: id in live ==> ReqOk(queries, socks, id, live[id]))
    && CallbackInv(live, queries, socks) && OnePerClient(live)
  }

  /** A client is released only when no lookup is pending any more, or the deadline has passed. */
  ghost predicate EndOk(e: End) {
    e.Released? ==> (!e.r.dns && !DoingAuth(e.r)) || e.r.deadline < e.at
  }

  ghost predicate EndedIn(ended: seq<End>, id: Id) {
    exists k :: 0 <= k < |ended| && ended[k].id == id
  }

  /**
   Every request that was ever made is live or has ended, not both, and ended once. The live ones
   are those on auth_poll_list, each once.
   */
  ghost predicate Books(live: set<Id>, poll: seq<Id>, ended: seq<End>, next: Id) {
    && Distinct(poll) && (forall id :: id in poll <==> id in live)
    && (forall i, j :: 0 <= i < j < |ended| ==> ended[i].id != ended[j].id)
    && (forall k :: 0 <= k < |ended| ==> ended[k].id < next && ended[k].id !in live && EndOk(ended[k]))
    && (forall id: Id :: id < next ==> id in live || EndedIn(ended, id))
    && (forall id :: id in live ==> id < next)
  }

  ghost predicate Core(w: World) {
    Links(w.live, w.queries, w.socks) && Books(w.live.Keys, w.poll, w.ended, w.next)
  }

  /** Every request that has not ended still waits for something. */
  ghost predicate Waits(w: World) {
    forall id :: id in w.live ==> w.live[id].dns || DoingAuth(w.live[id])
  }

  ghost predicate Inv(w: World) {
    Core(w) && Waits(w)
  }

  /** All requests but `id` wait for something. */
  ghost predicate OthersWait(w: World, id: Id) {
    forall k :: k in w.live && k != id ==> w.live[k].dns || DoingAuth(w.live[k])
  }

  // ------------------------------------------------------------------------------------
  // Steps
  // ------------------------------------------------------------------------------------

  function WithoutSock(socks: map<nat, Sock>, fd: Option<nat>): map<nat, Sock> {
    if fd.Some? then socks - {fd.value} else socks
  }

  /** fd_close of the ident socket, and ClearAuth. */
  function IdentDone(w: World, id: Id): World
    requires id in w.live
  {
    var r := w.live[id];
    w.(live := w.live[id := r.(fd := None, connecting := false, pending := false)], socks := WithoutSock(w.socks, r.fd))
  }

  function DnsDone(w: World, id: Id): World
    requires id in w.live
  {
    w.(live := w.live[id := w.live[id].(dns := false)], queries := w.queries - {w.live[id].client})
  }

  /** The request is unlinked and freed; socket and query that it may still have are closed first. */
  function Ended(w: World, e: End): World
    requires e.id in w.live
  {
    var r := w.live[e.id];
    World(w.live - {e.id}, Without(w.poll, e.id), w.queries - {r.client}, WithoutSock(w.socks, r.fd), w.ended + [e], w.next)
  }

  /** No request is new, and none changes its client. */
  lemma OneSame(live: map<Id, Req>, live': map<Id, Req>)
    requires OnePerClient(live) && live'.Keys <= live.Keys
    requires forall k :: k in live' ==> live'[k].client == live[k].client
    ensures OnePerClient(live')
  {
  }

  /** The sockets and queries after `id` gave up its socket, its query, or both. */
  ghost predicate GivenUp(w: World, w': World, id: Id, sock: bool, query: bool)
    requires id in w.live
  {
    && w'.socks == (if sock then WithoutSock(w.socks, w.live[id].fd) else w.socks)
    && w'.queries == (if query then w.queries - {w.live[id].client} else w.queries)
    && w'.live.Keys <= w.live.Keys && (forall k :: k in w'.live && k != id ==> w'.live[k] == w.live[k])
  }

  /** Another request still finds what it waits for. */
  lemma OtherReqOk(w: World, w': World, id: Id, sock: bool, query: bool, k: Id)
    requires id in w.live && k in w'.live && k != id && GivenUp(w, w', id, sock, query)
    requires ReqOk(w.queries, w.socks, id, w.live[id]) && ReqOk(w.queries, w.socks, k, w.live[k])
    requires w.live[k].client != w.live[id].client
    ensures ReqOk(w'.queries, w'.socks, k, w'.live[k])
  {
  }

  /** Nothing that can still call back concerns what was given up. */
  lemma OthersCallBack(w: World, w': World, id: Id, sock: bool, query: bool)
    requires CallbackInv(w.live, w.queries, w.socks) && id in w.live && GivenUp(w, w', id, sock, query)
    requires id in w'.live ==>
      && w'.live[id].client == w.live[id].client
      && (!sock ==> w'.live[id].fd == w.live[id].fd) && (!query ==> w'.live[id].dns == w.live[id].dns)
    requires id !in w'.live ==> sock && query && w'.live.Keys == w.live.Keys - {id}
    requires id in w'.live ==> w'.live.Keys == w.live.Keys
    ensures CallbackInv(w'.live, w'.queries, w'.socks)
  {
    forall f | f in w'.socks ensures SockOk(w'.live, f, w'.socks[f]) {
      assert SockOk(w.live, f, w.socks[f]);
    }
    forall c | c in w'.queries ensures QueryOk(w'.live, c, w'.queries[c]) {
      assert QueryOk(w.live, c, w.queries[c]);
    }
  }

  lemma GivenUpKeeps(w: World, w': World, id: Id, sock: bool, query: bool)
    requires Links(w.live, w.queries, w.socks) && id in w.live && GivenUp(w, w', id, sock, query)
    requires id in w'.live ==>
      && ReqOk(w'.queries, w'.socks, id, w'.live[id]) && w'.live[id].client == w.live[id].client
      && (!sock ==> w'.live[id].fd == w.live[id].fd) && (!query ==> w'.live[id].dns == w.live[id].dns)
    requires id !in w'.live ==> sock && query && w'.live.Keys == w.live.Keys - {id}
    requires id in w'.live ==> w'.live.Keys == w.live.Keys
    ensures Links(w'.live, w'.queries, w'.socks)
  {
    hide ReqOk, CallbackInv;
    OthersCallBack(w, w', id, sock, query);
    OneSame(w.live, w'.live);
    forall k | k in w'.live ensures ReqOk(w'.queries, w'.socks, k, w'.live[k]) {
      assert ReqOk(w.queries, w.socks, k, w.live[k]) && ReqOk(w.queries, w.socks, id, w.live[id]);
      if k != id {
        OtherReqOk(w, w', id, sock, query, k);
      }
    }
  }

  lemma IdentDoneKeeps(w: World, id: Id)
    requires Core(w) && id in w.live && OthersWait(w, id)
    ensures Core(IdentDone(w, id)) && OthersWait(IdentDone(w, id), id)
  {
    hide Books, Links;
    var w' := IdentDone(w, id);
    assert w'.live.Keys == w.live.Keys;
    LinkedReq(w, id);
    GivenUpKeeps(w, w', id, true, false);
  }

  lemma LinkedReq(w: World, id: Id)
    requires Links(w.live, w.queries, w.socks) && id in w.live
    ensures ReqOk(w.queries, w.socks, id, w.live[id])
  {
  }

  lemma DnsDoneKeeps(w: World, id: Id)
    requires Core(w) && id in w.live && OthersWait(w, id)
    ensures Core(DnsDone(w, id)) && OthersWait(DnsDone(w, id), id)
  {
    hide Books, Links;
    var w' := DnsDone(w, id);
    assert w'.live.Keys == w.live.Keys;
    LinkedReq(w, id);
    GivenUpKeeps(w, w', id, false, true);
  }

  lemma EndedMore(ended: seq<End>, e: End, id: Id)
    ensures EndedIn(ended + [e], id) <==> EndedIn(ended, id) || e.id == id
  {
    if EndedIn(ended, id) {
      var k :| 0 <= k < |ended| && ended[k].id == id;
      assert (ended + [e])[k].id == id;
    }
    if e.id == id {
      assert (ended + [e])[|ended|].id == id;
    }
  }

  lemma EndedBooks(live: set<Id>, poll: seq<Id>, ended: seq<End>, next: Id, e: End)
    requires Books(live, poll, ended, next) && e.id in live && EndOk(e)
    ensures Books(live - {e.id}, Without(poll, e.id), ended + [e], next)
  {
    WithoutDistinct(poll, e.id);
    WithoutMembers(poll, e.id);
    forall id: Id | id < next ensures id in live - {e.id} || EndedIn(ended + [e], id) {
      EndedMore(ended, e, id);
    }
  }

  /** A request may end as discarded at any time, and as released when EndOk says so. */
  lemma EndedKeeps(w: World, e: End)
    requires Core(w) && e.id in w.live && OthersWait(w, e.id) && EndOk(e)
    ensures Inv(Ended(w, e))
  {
    hide Books, Links;
    var w' := Ended(w, e);
    EndedBooks(w.live.Keys, w.poll, w.ended, w.next, e);
    assert w'.live.Keys == w.live.Keys - {e.id};
    GivenUpKeeps(w, w', e.id, true, true);
  }

  /** ClearAuthConnect, SetAuthPending, and the read handler of the ident socket. */
  function Connected(w: World, id: Id): World
    requires id in w.live && w.live[id].fd.Some?
  {
    w.(live := w.live[id := w.live[id].(connecting := false, pending := true)],
       socks := w.socks[w.live[id].fd.value := Reading(id)])
  }

  lemma ConnectedReq(w: World, id: Id, k: Id)
    requires Links(w.live, w.queries, w.socks) && id in w.live && k in w.live && w.live[id].connecting
    ensures w.live[id].fd.Some? && ReqOk(Connected(w, id).queries, Connected(w, id).socks, k, Connected(w, id).live[k])
  {
    hide CallbackInv, OnePerClient;
    LinkedReq(w, id);
    LinkedReq(w, k);
  }

  lemma ConnectedCallBack(w: World, id: Id)
    requires CallbackInv(w.live, w.queries, w.socks) && id in w.live && w.live[id].fd.Some? && w.live[id].fd.value in w.socks
    ensures CallbackInv(Connected(w, id).live, Connected(w, id).queries, Connected(w, id).socks)
  {
    var w' := Connected(w, id);
    forall f | f in w'.socks ensures SockOk(w'.live, f, w'.socks[f]) {
      assert f in w.socks && SockOk(w.live, f, w.socks[f]);
    }
    forall c | c in w'.queries ensures QueryOk(w'.live, c, w'.queries[c]) {
      assert QueryOk(w.live, c, w.queries[c]);
    }
  }

  lemma ConnectedKeeps(w: World, id: Id)
    requires Inv(w) && id in w.live && w.live[id].connecting
    ensures w.live[id].fd.Some? && Inv(Connected(w, id)) && !Connected(w, id).live[id].connecting
  {
    hide Books, OnePerClient, ReqOk, CallbackInv;
    ConnectedReq(w, id, id);
    var w' := Connected(w, id);
    SockThere(w, id);
    ConnectedCallBack(w, id);
    OneSame(w.live, w'.live);
    assert w'.live.Keys == w.live.Keys;
    forall k | k in w'.live ensures ReqOk(w'.queries, w'.socks, k, w'.live[k]) {
      ConnectedReq(w, id, k);
    }
  }

  lemma SockThere(w: World, id: Id)
    requires Links(w.live, w.queries, w.socks) && id in w.live && w.live[id].fd.Some?
    ensures w.live[id].fd.value in w.socks
  {
    LinkedReq(w, id);
  }

  /** make_auth_request, the resolver query, and the ident socket if there is one; `fd` is not in use. */
  function Made(w: World, c: Client, fd: Option<nat>, now: int): World {
    var id := w.next;
    World(w.live[id := Req(c, fd, fd.Some?, false, true, now + CONNECTTIMEOUT)], [id] + w.poll, w.queries[c := id],
          if fd.Some? then w.socks[fd.value := Connecting(id)] else w.socks, w.ended, id + 1)
  }

  ghost predicate NewClient(w: World, c: Client) {
    forall id :: id in w.live ==> w.live[id].client != c
  }

  lemma MadeReq(w: World, c: Client, fd: Option<nat>, now: int, k: Id)
    requires Links(w.live, w.queries, w.socks) && NewClient(w, c) && (fd.Some? ==> fd.value !in w.socks)
    requires w.next !in w.live && k in Made(w, c, fd, now).live
    ensures ReqOk(Made(w, c, fd, now).queries, Made(w, c, fd, now).socks, k, Made(w, c, fd, now).live[k])
  {
    hide CallbackInv, OnePerClient;
    if k != w.next {
      LinkedReq(w, k);
    }
  }

  lemma MadeCallBack(w: World, c: Client, fd: Option<nat>, now: int)
    requires CallbackInv(w.live, w.queries, w.socks) && w.next !in w.live
    ensures CallbackInv(Made(w, c, fd, now).live, Made(w, c, fd, now).queries, Made(w, c, fd, now).socks)
  {
    var w' := Made(w, c, fd, now);
    forall f | f in w'.socks ensures SockOk(w'.live, f, w'.socks[f]) {
      assert f in w.socks ==> SockOk(w.live, f, w.socks[f]);
    }
    forall d | d in w'.queries ensures QueryOk(w'.live, d, w'.queries[d]) {
      assert d in w.queries ==> QueryOk(w.live, d, w.queries[d]);
    }
  }

  lemma MadeKeeps(w: World, c: Client, fd: Option<nat>, now: int)
    requires Inv(w) && NewClient(w, c) && (fd.Some? ==> fd.value !in w.socks)
    ensures Inv(Made(w, c, fd, now)) && w.next !in w.live
  {
    hide Books, OnePerClient, ReqOk, CallbackInv;
    var w' := Made(w, c, fd, now);
    MadeBooks(w.live.Keys, w.poll, w.ended, w.next);
    MadeOne(w.live, w.next, w'.live[w.next]);
    assert w'.live.Keys == w.live.Keys + {w.next};
    MadeCallBack(w, c, fd, now);
    forall k | k in w'.live ensures ReqOk(w'.queries, w'.socks, k, w'.live[k]) {
      MadeReq(w, c, fd, now, k);
    }
  }

  lemma MadeBooks(live: set<Id>, poll: seq<Id>, ended: seq<End>, next: Id)
    requires Books(live, poll, ended, next)
    ensures next !in live && Books(live + {next}, [next] + poll, ended, next + 1)
  {
  }

  lemma MadeOne(live: map<Id, Req>, id: Id, r: Req)
    requires OnePerClient(live) && forall k :: k in live ==> live[k].client != r.client
    ensures OnePerClient(live[id := r])
  {
  }

  // ------------------------------------------------------------------------------------
  // Events
  // ------------------------------------------------------------------------------------

  /** delete_identd_queries, over the rest of the list. */
  function DeleteIdent(w: World, c: Client, todo: seq<Id>): World
    decreases |todo|
  {
    if todo == [] then w
    else if todo[0] in w.live && w.live[todo[0]].client == c then DeleteIdent(Ended(w, Discarded(todo[0])), c, todo[1..])
    else DeleteIdent(w, c, todo[1..])
  }

  /** The part of exit_client that concerns lookups. */
  function Exited(w: World, c: Client): World {
    DeleteIdent(w.(queries := w.queries - {c}), c, w.poll)
  }

  /** Clients that exit while a released client is being read. */
  function Reacted(w: World, exits: seq<Client>): World
    decreases |exits|
  {
    if exits == [] then w else Reacted(Exited(w, exits[0]), exits[1..])
  }

  /** The request is freed and its client released, which may make clients exit. */
  function Let(w: World, id: Id, now: int, exits: seq<Client>): World
    requires id in w.live
  {
    Reacted(Ended(w, Released(id, w.live[id], now)), exits)
  }

  /** auth_error, and the end of read_auth_reply */
  function IdentOver(w: World, id: Id, now: int, exits: seq<Client>): World
    requires id in w.live
  {
    var w1 := IdentDone(w, id);
    if w1.live[id].dns then w1 else Let(w1, id, now, exits)
  }

  /** auth_dns_callback */
  function DnsOver(w: World, id: Id, now: int, exits: seq<Client>): World
    requires id in w.live
  {
    var w1 := DnsDone(w, id);
    if DoingAuth(w1.live[id]) then w1 else Let(w1, id, now, exits)
  }

  /** recv() would block, or has a reply or an error. */
  datatype Recv = Again | Got

  /** The connect is under way, has failed before or after it was made, or is up. */
  datatype Try = Pending | Failed | Up(recv: Recv)

  /** auth_connect_callback, and comm_connect_tcp before it calls back */
  function Tried(w: World, id: Id, t: Try, now: int, exits: seq<Client>): World
    requires id in w.live && w.live[id].fd.Some?
  {
    match t {
      case Pending => w
      case Failed => IdentOver(w, id, now, exits)
      case Up(Again) => Connected(w, id)
      case Up(Got) => IdentOver(Connected(w, id), id, now, exits)
    }
  }

  /** start_auth */
  function Started(w: World, c: Client, fd: Option<nat>, t: Try, now: int): World {
    var w1 := Made(w, c, fd, now);
    if fd.Some? then Tried(w1, w.next, t, now, []) else w1
  }

  /** The new request waits for the resolver until its deadline; ident is over already or in progress; others are untouched. */
  lemma StartedWaits(w: World, c: Client, fd: Option<nat>, t: Try, now: int)
    requires Inv(w) && NewClient(w, c) && (fd.Some? ==> fd.value !in w.socks)
    ensures var w' := Started(w, c, fd, t, now);
            && Inv(w') && w.next in w'.live && w'.ended == w.ended && w'.next == w.next + 1
            && w'.live[w.next].client == c && w'.live[w.next].dns && w'.live[w.next].deadline == now + 30
            && w'.live[w.next].fd == (if t in {Pending, Up(Again)} then fd else None)
            && w'.live[w.next].connecting == (fd.Some? && t.Pending?)
            && (forall id :: id in w.live ==> id in w'.live && w'.live[id] == w.live[id])
  {
    hide Books, Links;
    MadeKeeps(w, c, fd, now);
    if fd.Some? {
      TriedKeeps(Made(w, c, fd, now), w.next, t, now, []);
    }
  }

  lemma {:induction false} DeleteNone(w: World, c: Client, todo: seq<Id>)
    requires forall id :: id in todo && id in w.live ==> w.live[id].client != c
    ensures DeleteIdent(w, c, todo) == w
    decreases |todo|
  {
    if todo != [] {
      DeleteNone(w, c, todo[1..]);
    }
  }

  lemma {:induction false} DeleteOne(w: World, c: Client, todo: seq<Id>, id: Id)
    requires Distinct(todo) && id in todo && id in w.live && w.live[id].client == c
    requires forall k :: k in w.live && w.live[k].client == c ==> k == id
    ensures DeleteIdent(w, c, todo) == Ended(w, Discarded(id))
    decreases |todo|
  {
    if todo[0] == id {
      DeleteNone(Ended(w, Discarded(id)), c, todo[1..]);
    } else {
      assert Distinct(todo[1..]);
      DeleteOne(w, c, todo[1..], id);
    }
  }

  lemma PollHolds(w: World)
    requires Core(w)
    ensures Distinct(w.poll) && forall id :: id in w.poll <==> id in w.live
  {
  }

  /** The exit of a client discards its request, and nothing else. */
  lemma ExitedKeeps(w: World, c: Client)
    requires Inv(w)
    ensures Inv(Exited(w, c)) && NewClient(Exited(w, c), c)
    ensures NewClient(w, c) ==> Exited(w, c) == w
    ensures Exited(w, c) == w || exists id :: id in w.live && w.live[id].client == c && Exited(w, c) == Ended(w, Discarded(id))
  {
    hide Books, Links;
    PollHolds(w);
    var w0 := w.(queries := w.queries - {c});
    if id :| id in w.live && w.live[id].client == c {
      OneOnly(w, id);
      DeleteOne(w0, c, w.poll, id);
      assert w0.queries - {c} == w.queries - {c};
      assert Exited(w, c) == Ended(w, Discarded(id));
      EndedKeeps(w, Discarded(id));
    } else {
      NoQuery(w, c);
      DeleteNone(w0, c, w.poll);
    }
  }

  lemma OneOnly(w: World, id: Id)
    requires Core(w) && id in w.live
    ensures forall k :: k in w.live && w.live[k].client == w.live[id].client ==> k == id
  {
  }

  lemma NoQuery(w: World, c: Client)
    requires Core(w) && NewClient(w, c)
    ensures w.queries - {c} == w.queries
  {
    assert c in w.queries ==> QueryOk(w.live, c, w.queries[c]);
  }

  /** No request is new, those that are left are as before, and the list keeps its order. */
  ghost predicate Fewer(w: World, w': World) {
    && w'.live.Keys <= w.live.Keys && (forall id :: id in w'.live ==> w'.live[id] == w.live[id])
    && w'.poll == Kept(w.poll, w'.live.Keys) && w.ended <= w'.ended && w'.next == w.next
  }

  lemma FewerSelf(w: World)
    requires Core(w)
    ensures Fewer(w, w)
  {
    PollHolds(w);
    KeptAll(w.poll, w.live.Keys);
  }

  lemma EndedFewer(w: World, e: End)
    requires Core(w) && e.id in w.live
    ensures Fewer(w, Ended(w, e))
  {
    hide Books, Links;
    PollHolds(w);
    WithoutIsKept(w.poll, e.id, w.live.Keys);
    assert Ended(w, e).live.Keys == w.live.Keys - {e.id};
  }

  lemma FewerMore(w: World, w': World, w'': World)
    requires Fewer(w, w') && Fewer(w', w'')
    ensures Fewer(w, w'')
  {
    KeptTwice(w.poll, w'.live.Keys, w''.live.Keys);
  }

  lemma {:induction false} ReactedKeeps(w: World, exits: seq<Client>)
    requires Inv(w)
    ensures Inv(Reacted(w, exits)) && Fewer(w, Reacted(w, exits))
    decreases |exits|
  {
    hide Books, Links, Exited, Fewer, Ended;
    FewerSelf(w);
    if exits != [] {
      var w' := Exited(w, exits[0]);
      ExitedKeeps(w, exits[0]);
      if w' != w {
        var id :| id in w.live && w.live[id].client == exits[0] && w' == Ended(w, Discarded(id));
        EndedFewer(w, Discarded(id));
      }
      ReactedKeeps(w', exits[1..]);
      FewerMore(w, w', Reacted(w', exits[1..]));
    }
  }

  /** A release is right when nothing is pending or the deadline has passed. */
  lemma LetKeeps(w: World, id: Id, now: int, exits: seq<Client>)
    requires Core(w) && id in w.live && OthersWait(w, id)
    requires (!w.live[id].dns && !DoingAuth(w.live[id])) || w.live[id].deadline < now
    ensures Inv(Let(w, id, now, exits)) && Fewer(w, Let(w, id, now, exits)) && id !in Let(w, id, now, exits).live
    ensures Released(id, w.live[id], now) in Let(w, id, now, exits).ended
  {
    hide Books, Links, Reacted, Ended, Fewer;
    var e := Released(id, w.live[id], now);
    EndedKeeps(w, e);
    EndedFewer(w, e);
    ReactedKeeps(Ended(w, e), exits);
    FewerMore(w, Ended(w, e), Let(w, id, now, exits));
    LetGone(w, e, Let(w, id, now, exits));
  }

  lemma LetExpired(w: World, id: Id, now: int, exits: seq<Client>)
    requires Inv(w) && id in w.live && w.live[id].deadline < now
    ensures Inv(Let(w, id, now, exits)) && Fewer(w, Let(w, id, now, exits)) && id !in Let(w, id, now, exits).live
  {
    hide Books, Links, Let, Fewer;
    LetKeeps(w, id, now, exits);
  }

  lemma LetGone(w: World, e: End, w': World)
    requires e.id in w.live && Fewer(Ended(w, e), w')
    ensures e.id !in w'.live && e in w'.ended
  {
    assert Ended(w, e).ended[|w.ended|] == e;
  }

  /** The request waits on, as `r`; no other changes and none ends. */
  ghost predicate WaitsOn(w: World, w': World, id: Id, r: Req) {
    && Inv(w') && id in w.live && w'.live == w.live[id := r] && w'.poll == w.poll && w'.ended == w.ended && w'.next == w.next
  }

  /**
   The client of the request is released, with the request as it was then; the requests of the
   clients that exit meanwhile are discarded; all others stay as they are.
   */
  ghost predicate IsReleased(w: World, w': World, id: Id, r: Req, now: int, exits: seq<Client>) {
    && Inv(w') && id in w.live && w'.next == w.next
    && (forall k :: k in w'.live <==> k in w.live && k != id && w.live[k].client !in exits)
    && (forall k :: k in w'.live ==> w'.live[k] == w.live[k])
    && w.ended + [Released(id, r, now)] <= w'.ended
    && (forall k :: |w.ended| < k < |w'.ended| ==> w'.ended[k].Discarded?)
  }

  lemma {:induction false} ReactedDiscards(w: World, exits: seq<Client>)
    requires Inv(w)
    ensures w.ended <= Reacted(w, exits).ended
    ensures forall k :: |w.ended| <= k < |Reacted(w, exits).ended| ==> Reacted(w, exits).ended[k].Discarded?
    decreases |exits|
  {
    hide Books, Links, Exited;
    if exits != [] {
      ExitedKeeps(w, exits[0]);
      ReactedDiscards(Exited(w, exits[0]), exits[1..]);
    }
  }

  /** `w1` differs from `w` in what `id` waits for. */
  lemma LetReleases(w: World, w1: World, id: Id, now: int, exits: seq<Client>)
    requires Core(w1) && OthersWait(w1, id) && id in w.live && id in w1.live
    requires w1.live == w.live[id := w1.live[id]] && w1.ended == w.ended && w1.next == w.next
    requires (!w1.live[id].dns && !DoingAuth(w1.live[id])) || w1.live[id].deadline < now
    ensures IsReleased(w, Let(w1, id, now, exits), id, w1.live[id], now, exits)
  {
    hide Books, Links, Reacted;
    var e := Released(id, w1.live[id], now);
    EndedKeeps(w1, e);
    var w2 := Ended(w1, e);
    ReactedKeeps(w2, exits);
    ReactedLive(w2, exits);
    ReactedDiscards(w2, exits);
    ReactedSame(w2, Reacted(w2, exits));
  }

  lemma ReactedSame(w: World, w': World)
    requires Fewer(w, w')
    ensures w'.next == w.next && forall k :: k in w'.live ==> k in w.live && w'.live[k] == w.live[k]
  {
  }

  /** Nothing has changed but that requests have ended, and `id`. */
  ghost predicate OnlyOne(w: World, w': World, id: Id) {
    forall k :: k in w'.live && k != id ==> k in w.live && w'.live[k] == w.live[k]
  }

  /** No other request has the socket of `id`. */
  lemma SockGone(w: World, w': World, id: Id)
    requires Inv(w) && Inv(w') && id in w.live && w.live[id].fd.Some? && OnlyOne(w, w', id)
    requires id in w'.live ==> w'.live[id].fd.None?
    ensures w.live[id].fd.value !in w'.socks
  {
    hide Books;
    var f := w.live[id].fd.value;
    LinkedReq(w, id);
    if f in w'.socks {
      var k := w'.socks[f].id;
      assert SockOk(w'.live, f, w'.socks[f]);
      LinkedReq(w, k);
    }
  }

  /** No other request has the query of its client. */
  lemma QueryGone(w: World, w': World, id: Id)
    requires Inv(w) && Inv(w') && id in w.live && OnlyOne(w, w', id)
    requires id in w'.live ==> !w'.live[id].dns
    ensures w.live[id].client !in w'.queries
  {
    hide Books;
    var c := w.live[id].client;
    if c in w'.queries {
      assert QueryOk(w'.live, c, w'.queries[c]);
      OneOnly(w, id);
    }
  }

  /** Either way a request goes, the others are as they were. */
  lemma GoneIsOnlyOne(w: World, w': World, id: Id, r: Req, now: int, exits: seq<Client>)
    requires WaitsOn(w, w', id, r) || IsReleased(w, w', id, r, now, exits)
    ensures Inv(w') && OnlyOne(w, w', id) && w.ended <= w'.ended && (id in w'.live ==> w'.live[id] == r)
  {
    hide Inv;
  }

  lemma DoingHasSock(w: World, id: Id)
    requires Inv(w) && id in w.live && DoingAuth(w.live[id])
    ensures w.live[id].fd.Some?
  {
    LinkedReq(w, id);
  }

  /** When ident is over the client is released exactly if the resolver has answered. */
  lemma IdentOverKeeps(w: World, id: Id, now: int, exits: seq<Client>)
    requires Inv(w) && id in w.live && DoingAuth(w.live[id])
    ensures var r, w' := w.live[id].(fd := None, connecting := false, pending := false), IdentOver(w, id, now, exits);
            if w.live[id].dns then WaitsOn(w, w', id, r) else IsReleased(w, w', id, r, now, exits)
    ensures w.live[id].fd.Some? && w.live[id].fd.value !in IdentOver(w, id, now, exits).socks
  {
    hide Books, Links, Let, IsReleased, OnlyOne;
    IdentDoneKeeps(w, id);
    var w1 := IdentDone(w, id);
    DoingHasSock(w, id);
    if !w1.live[id].dns {
      LetReleases(w, w1, id, now, exits);
    }
    GoneIsOnlyOne(w, IdentOver(w, id, now, exits), id, w1.live[id], now, exits);
    SockGone(w, IdentOver(w, id, now, exits), id);
  }

  /** When the resolver has answered the client is released exactly if ident is over. */
  lemma DnsOverKeeps(w: World, id: Id, now: int, exits: seq<Client>)
    requires Inv(w) && id in w.live && w.live[id].dns
    ensures var r, w' := w.live[id].(dns := false), DnsOver(w, id, now, exits);
            && w.live[id].client !in w'.queries
            && if DoingAuth(w.live[id]) then WaitsOn(w, w', id, r) else IsReleased(w, w', id, r, now, exits)
  {
    hide Books, Links, Let, IsReleased, OnlyOne;
    DnsDoneKeeps(w, id);
    var w1 := DnsDone(w, id);
    if !DoingAuth(w1.live[id]) {
      LetReleases(w, w1, id, now, exits);
    }
    GoneIsOnlyOne(w, DnsOver(w, id, now, exits), id, w1.live[id], now, exits);
    QueryGone(w, DnsOver(w, id, now, exits), id);
  }

  /** Whatever becomes of the connect: it is awaited, the reply is awaited, or ident is over. */
  lemma TriedKeeps(w: World, id: Id, t: Try, now: int, exits: seq<Client>)
    requires Inv(w) && id in w.live && w.live[id].connecting
    ensures w.live[id].fd.Some?
    ensures var r, w' := w.live[id], Tried(w, id, t, now, exits);
            var over := r.(fd := None, connecting := false, pending := false);
            match t {
              case Pending => w' == w
              case Up(Again) => WaitsOn(w, w', id, r.(connecting := false, pending := true)) && w'.socks == w.socks[r.fd.value := Reading(id)]
              case _ => if r.dns then WaitsOn(w, w', id, over) else IsReleased(w, w', id, over, now, exits)
            }
  {
    hide Books, Links, IdentOver;
    ConnectedKeeps(w, id);
    match t {
      case Pending =>
      case Failed => IdentOverKeeps(w, id, now, exits);
      case Up(Again) =>
      case Up(Got) => IdentOverKeeps(Connected(w, id), id, now, exits);
    }
  }

  // ------------------------------------------------------------------------------------
  // The sweep
  // ------------------------------------------------------------------------------------

  /** The entry behind `id`, as its list node tells. */
  function Behind(s: seq<Id>, id: Id): Option<Id> {
    if s == [] then None
    else if s[0] == id then (if |s| > 1 then Some(s[1]) else None)
    else Behind(s[1..], id)
  }

  lemma {:induction false} BehindIs(done: seq<Id>, todo: seq<Id>)
    requires todo != [] && Distinct(done + todo)
    ensures Behind(done + todo, todo[0]) == if |todo| > 1 then Some(todo[1]) else None
    ensures todo[0] in done + todo && (|todo| > 1 ==> todo[1] != todo[0] && todo[1] in done + todo)
  {
    var s := done + todo;
    assert |todo| > 1 ==> s[|done|] == todo[0] != todo[1] == s[|done| + 1];
    if done == [] {
      assert s == todo;
    } else {
      assert s[0] != s[|done|];
      assert s[1..] == done[1..] + todo;
      assert Distinct(s[1..]);
      BehindIs(done[1..], todo);
    }
  }

  /** The list after a release in the middle: what is left of both sides. */
  lemma SweptOn(w: World, w': World, done: seq<Id>, todo: seq<Id>)
    requires Fewer(w, w') && todo != [] && w.poll == done + todo && todo[0] !in w'.live
    ensures w'.poll == Kept(done, w'.live.Keys) + Kept(todo[1..], w'.live.Keys)
    ensures |Kept(todo[1..], w'.live.Keys)| < |todo|
    ensures |todo| > 1 && todo[1] in w'.live ==>
              Kept(todo[1..], w'.live.Keys) != [] && Kept(todo[1..], w'.live.Keys)[0] == todo[1]
  {
    KeptAppend(done, todo, w'.live.Keys);
    KeptShort(todo[1..], w'.live.Keys);
  }

  /** The requests that survive when clients exit. */
  function Bystanders(live: map<Id, Req>, exits: seq<Client>): set<Id> {
    set id | id in live && live[id].client !in exits
  }

  lemma ExitedLive(w: World, c: Client)
    requires Inv(w)
    ensures forall k :: k in w.live ==> (k in Exited(w, c).live <==> w.live[k].client != c)
    ensures forall k :: k in Exited(w, c).live ==> k in w.live && Exited(w, c).live[k] == w.live[k]
  {
    hide Books, Links, Exited;
    ExitedKeeps(w, c);
    if id :| id in w.live && w.live[id].client == c && Exited(w, c) == Ended(w, Discarded(id)) {
      OneOnly(w, id);
    }
  }

  /** The exits of a reaction discard the requests of those clients, and no others. */
  lemma {:induction false} ReactedLive(w: World, exits: seq<Client>)
    requires Inv(w)
    ensures Reacted(w, exits).live.Keys == Bystanders(w.live, exits)
    decreases |exits|
  {
    hide Inv, Exited;
    if exits != [] {
      var w' := Exited(w, exits[0]);
      ExitedKeeps(w, exits[0]);
      ExitedLive(w, exits[0]);
      ReactedLive(w', exits[1..]);
      assert forall c :: c in exits <==> c == exits[0] || c in exits[1..];
      assert Bystanders(w'.live, exits[1..]) == Bystanders(w.live, exits);
    }
  }

  /** The next entry of the list survives a release exactly if its client is not among those that exit. */
  lemma LetLive(w: World, id: Id, now: int, exits: seq<Client>)
    requires Inv(w) && id in w.live && w.live[id].deadline < now
    ensures forall k :: k in w.live && k != id ==> (k in Let(w, id, now, exits).live <==> w.live[k].client !in exits)
  {
    hide Books, Links, Reacted;
    EndedKeeps(w, Released(id, w.live[id], now));
    ReactedLive(Ended(w, Released(id, w.live[id], now)), exits);
  }

  /**
   The sweep over the entries `todo` meets a freed one: some expired entry that it gets to has a
   script by which the client of the next entry exits. Entries whose clients have exited before
   are no longer on the list when it gets there.
   */
  predicate MeetsFreed(live: map<Id, Req>, todo: seq<Id>, now: int, script: Id -> seq<Client>)
    requires forall id :: id in todo ==> id in live
    decreases |todo|
  {
    if todo == [] then false
    else if live[todo[0]].deadline >= now then MeetsFreed(live, todo[1..], now, script)
    else
      KeptShort(todo[1..], Bystanders(live, script(todo[0])));
      || (|todo| > 1 && live[todo[1]].client in script(todo[0]))
      || MeetsFreed(live, Kept(todo[1..], Bystanders(live, script(todo[0]))), now, script)
  }

  /** Clients that are released make no client exit but themselves. */
  ghost predicate OwnOnly(live: map<Id, Req>, script: Id -> seq<Client>) {
    forall id, c :: id in live && c in script(id) ==> c == live[id].client
  }

  /** Then the sweep is safe. */
  lemma {:induction false} OwnExitsAreSafe(live: map<Id, Req>, todo: seq<Id>, now: int, script: Id -> seq<Client>)
    requires OnePerClient(live) && OwnOnly(live, script) && Distinct(todo) && forall id :: id in todo ==> id in live
    ensures !MeetsFreed(live, todo, now, script)
    decreases |todo|
  {
    if todo != [] {
      assert Distinct(todo[1..]);
      if live[todo[0]].deadline >= now {
        OwnExitsAreSafe(live, todo[1..], now, script);
      } else {
        var rest := Kept(todo[1..], Bystanders(live, script(todo[0])));
        KeptShort(todo[1..], Bystanders(live, script(todo[0])));
        KeptDistinct(todo[1..], Bystanders(live, script(todo[0])));
        OwnExitsAreSafe(live, rest, now, script);
        assert |todo| > 1 ==> todo[0] != todo[1];
      }
    }
  }

  lemma {:induction false} KeptSame(s: seq<Id>, a: set<Id>, b: set<Id>)
    requires forall x :: x in s ==> (x in a <==> x in b)
    ensures Kept(s, a) == Kept(s, b)
  {
    if s != [] {
      KeptSame(s[1..], a, b);
    }
  }

  /** What a release in the middle of the sweep leaves to be done. */
  lemma SweptLeft(live: map<Id, Req>, w: World, todo: seq<Id>, now: int, script: Id -> seq<Client>)
    requires Inv(w) && w.live.Keys <= live.Keys && (forall id :: id in w.live ==> w.live[id] == live[id])
    requires todo != [] && Distinct(todo) && (forall id :: id in todo ==> id in w.live) && live[todo[0]].deadline < now
    ensures var w' := Let(w, todo[0], now, script(todo[0]));
            && (|todo| > 1 ==> (todo[1] in w'.live <==> live[todo[1]].client !in script(todo[0])))
            && MeetsFreed(live, todo, now, script) ==
               ((|todo| > 1 && todo[1] !in w'.live) || MeetsFreed(live, Kept(todo[1..], w'.live.Keys), now, script))
  {
    hide Inv, Let;
    LetLive(w, todo[0], now, script(todo[0]));
    assert forall id :: id in todo[1..] ==> id in todo && id != todo[0];
    KeptSame(todo[1..], Let(w, todo[0], now, script(todo[0])).live.Keys, Bystanders(live, script(todo[0])));
  }

  lemma SweptSame(w: World, w': World)
    requires Fewer(w, w')
    ensures w'.live.Keys <= w.live.Keys && forall id :: id in w'.live ==> id in w.live && w'.live[id] == w.live[id]
  {
  }

  /** Clients that only exit themselves keep the sweep safe. */
  lemma SafeSweep(w: World, now: int, script: Id -> seq<Client>)
    requires Inv(w) && OwnOnly(w.live, script)
    ensures (forall id :: id in w.poll ==> id in w.live) && !MeetsFreed(w.live, w.poll, now, script)
  {
    hide OwnOnly;
    PollHolds(w);
    OwnExitsAreSafe(w.live, w.poll, now, script);
  }

  /** A request that the sweep has ended was past its deadline, or its client was made to exit. */
  ghost predicate SweptAway(w: World, ended: seq<End>, id: Id, now: int, script: Id -> seq<Client>)
    requires id in w.live
  {
    || (w.live[id].deadline < now && Released(id, w.live[id], now) in ended)
    || (Discarded(id) in ended && exists k :: MadeExit(w, ended, k, w.live[id].client, now, script))
  }

  /** The client of `k` was released past its deadline, and made `c` exit. */
  ghost predicate MadeExit(w: World, ended: seq<End>, k: Id, c: Client, now: int, script: Id -> seq<Client>) {
    k in w.live && w.live[k].deadline < now && c in script(k) && Released(k, w.live[k], now) in ended
  }

  ghost predicate AllSweptAway(w0: World, w: World, now: int, script: Id -> seq<Client>) {
    forall id :: id in w0.live && id !in w.live ==> SweptAway(w0, w.ended, id, now, script)
  }

  lemma SweptAwayStays(w: World, ended: seq<End>, ended': seq<End>, id: Id, now: int, script: Id -> seq<Client>)
    requires id in w.live && ended <= ended' && SweptAway(w, ended, id, now, script)
    ensures SweptAway(w, ended', id, now, script)
  {
    assert forall e :: e in ended ==> e in ended';
    if k :| MadeExit(w, ended, k, w.live[id].client, now, script) {
      assert MadeExit(w, ended', k, w.live[id].client, now, script);
    }
  }

  /** A request that is gone without having been released was discarded. */
  lemma GoneIsDiscarded(w: World, w': World, id: Id, r: Req, now: int, exits: seq<Client>, k: Id)
    requires Inv(w) && IsReleased(w, w', id, r, now, exits) && k in w.live && k !in w'.live && k != id
    ensures Discarded(k) in w'.ended
  {
    hide Links;
    assert EndedIn(w'.ended, k);
    var j :| 0 <= j < |w'.ended| && w'.ended[j].id == k;
  }

  lemma SweepMore(w0: World, w: World, id: Id, now: int, script: Id -> seq<Client>)
    requires Inv(w) && AllSweptAway(w0, w, now, script) && id in w.live && w.live[id].deadline < now
    requires forall k :: k in w.live ==> k in w0.live && w0.live[k] == w.live[k]
    ensures AllSweptAway(w0, Let(w, id, now, script(id)), now, script)
  {
    hide Books, Links, Let, SweptAway;
    var w' := Let(w, id, now, script(id));
    LetReleases(w, w, id, now, script(id));
    ReleasedIn(w, w', id, now, script(id));
    forall k | k in w0.live && k !in w'.live ensures SweptAway(w0, w'.ended, k, now, script) {
      if k !in w.live {
        SweptAwayStays(w0, w.ended, w'.ended, k, now, script);
      } else if k != id {
        GoneIsDiscarded(w, w', id, w.live[id], now, script(id), k);
        assert MadeExit(w0, w'.ended, id, w0.live[k].client, now, script);
        SweptAwayIs(w0, w'.ended, k, id, now, script);
      } else {
        SweptAwayIs(w0, w'.ended, k, id, now, script);
      }
    }
  }

  lemma SweptAwayIs(w: World, ended: seq<End>, id: Id, k: Id, now: int, script: Id -> seq<Client>)
    requires id in w.live
    requires || (w.live[id].deadline < now && Released(id, w.live[id], now) in ended)
             || (Discarded(id) in ended && MadeExit(w, ended, k, w.live[id].client, now, script))
    ensures SweptAway(w, ended, id, now, script)
  {
  }

  lemma ReleasedIn(w: World, w': World, id: Id, now: int, exits: seq<Client>)
    requires id in w.live && IsReleased(w, w', id, w.live[id], now, exits)
    ensures Released(id, w.live[id], now) in w'.ended && w.ended <= w'.ended
  {
    hide Inv;
    assert w'.ended[|w.ended|] == Released(id, w.live[id], now);
  }

  const NOBODY := World(map[], [], map[], map[], [], 0)

  lemma NobodyInv()
    ensures Inv(NOBODY)
  {
  }

  /**
   The sweep can meet a freed entry: two requests have expired, and reading the client that is
   released first makes the client of the next one exit.
   */
  lemma SuccessorCanGo(script: Id -> seq<Client>) returns (w: World)
    requires script(1) == [7]
    ensures w == Made(Made(NOBODY, 7, None, 0), 8, None, 0) && Inv(w) && (forall id :: id in w.poll ==> id in w.live)
    ensures MeetsFreed(w.live, w.poll, 31, script) && 0 !in Let(w, 1, 31, script(1)).live
  {
    hide Inv, Let;
    NobodyInv();
    MadeKeeps(NOBODY, 7, None, 0);
    MadeKeeps(Made(NOBODY, 7, None, 0), 8, None, 0);
    w := Made(Made(NOBODY, 7, None, 0), 8, None, 0);
    assert w.poll == [1, 0];
    LetLive(w, 1, 31, [7]);
  }

  lemma FewerEnded(w: World, w': World)
    requires Fewer(w, w')
    ensures w.ended <= w'.ended
  {
  }

  lemma QueryIs(w: World, c: Client)
    requires Core(w) && c in w.queries
    ensures w.queries[c] in w.live && w.live[w.queries[c]].client == c && w.live[w.queries[c]].dns
  {
    assert QueryOk(w.live, c, w.queries[c]);
  }

  lemma SockIs(w: World, fd: nat)
    requires Core(w) && fd in w.socks
    ensures w.socks[fd].id in w.live && w.live[w.socks[fd].id].fd == Some(fd) && DoingAuth(w.live[w.socks[fd].id])
    ensures w.socks[fd].Connecting? <==> w.live[w.socks[fd].id].connecting
  {
    assert SockOk(w.live, fd, w.socks[fd]);
    LinkedReq(w, w.socks[fd].id);
  }

  /** While the resolver is asked nothing is released, so the request may be linked after the connect is tried. */
  lemma StartsFirst(w: World, linked: World, id: Id, t: Try, now: int)
    requires linked == w.(poll := [id] + w.poll) && id in w.live && w.live[id].dns && w.live[id].fd.Some?
    ensures Tried(linked, id, t, now, []) == Tried(w, id, t, now, []).(poll := [id] + w.poll)
    ensures Tried(w, id, t, now, []).poll == w.poll && Tried(w, id, t, now, []).ended == w.ended && Tried(w, id, t, now, []).next == w.next
    ensures id in Tried(w, id, t, now, []).live
  {
  }

  // ------------------------------------------------------------------------------------
  // The code
  // ------------------------------------------------------------------------------------

  datatype Event =
    | Start(c: Client, socket: Option<nat>, t: Try)
    | DnsReply(c: Client)
    | ConnectResult(fd: nat, t: Try)
    | Readable(fd: nat, recv: Recv)
    | Timeouts(script: Id -> seq<Client>)
    | ClientExit(c: Client)

  /** A resolver reply: the client's query is gone; its request waits for ident, or the client is released. */
  ghost predicate DnsAnswered(w: World, w': World, c: Client, now: int, exits: seq<Client>)
    requires c in w.queries
  {
    var id := w.queries[c];
    && id in w.live && c !in w'.queries
    && var r := w.live[id].(dns := false);
       if w.live[id].connecting || w.live[id].pending then WaitsOn(w, w', id, r) else IsReleased(w, w', id, r, now, exits)
  }

  /** Ident is over: the socket is gone; the request waits for the resolver, or the client is released. */
  ghost predicate IdentEnds(w: World, w': World, fd: nat, now: int, exits: seq<Client>)
    requires fd in w.socks
  {
    var id := w.socks[fd].id;
    && id in w.live && fd !in w'.socks
    && var r := w.live[id].(fd := None, connecting := false, pending := false);
       if w.live[id].dns then WaitsOn(w, w', id, r) else IsReleased(w, w', id, r, now, exits)
  }

  /** The connect has come up and no reply is there yet: the socket is read from now on. */
  ghost predicate IdentReads(w: World, w': World, fd: nat)
    requires fd in w.socks
  {
    var id := w.socks[fd].id;
    && id in w.live && WaitsOn(w, w', id, w.live[id].(connecting := false, pending := true))
    && w'.socks == w.socks[fd := Reading(id)]
  }

  /** The client's request, if it has one, is discarded, and nothing else changes. */
  ghost predicate Leaves(w: World, w': World, c: Client) {
    && Inv(w') && w'.next == w.next
    && (forall k :: k in w'.live <==> k in w.live && w.live[k].client != c)
    && (forall k :: k in w'.live ==> w'.live[k] == w.live[k])
    && w.ended <= w'.ended && (forall k :: |w.ended| <= k < |w'.ended| ==> w'.ended[k].Discarded?)
  }

  /**
   A sweep: every request past its deadline has ended, by a release or because its client exited;
   every other is as before, unless a client that was released made its client exit.
   */
  ghost predicate Swept(w: World, w': World, now: int, script: Id -> seq<Client>) {
    && Inv(w') && w.ended <= w'.ended && w'.next == w.next && w'.live.Keys <= w.live.Keys
    && (forall id :: id in w.live && w.live[id].deadline < now ==> id !in w'.live)
    && (forall id :: id in w.live && id !in w'.live ==> SweptAway(w, w'.ended, id, now, script))
    && (forall id :: id in w'.live ==> w'.live[id] == w.live[id])
  }

  /** What an event makes of the requests; those that nothing waits for do not happen. */
  ghost predicate Follows(w: World, e: Event, now: int, exits: seq<Client>, w': World) {
    match e {
      case Start(c, fd, t) =>
        w' == if NewClient(w, c) && (fd.Some? ==> fd.value !in w.socks) then Started(w, c, fd, t, now) else w
      case DnsReply(c) => if c in w.queries then DnsAnswered(w, w', c, now, exits) else w' == w
      case ConnectResult(fd, t) =>
        if !(fd in w.socks && w.socks[fd].Connecting?) || t.Pending? then w' == w
        else if t == Up(Again) then IdentReads(w, w', fd)
        else IdentEnds(w, w', fd, now, exits)
      case Readable(fd, recv) =>
        if fd in w.socks && w.socks[fd].Reading? && recv.Got? then IdentEnds(w, w', fd, now, exits) else w' == w
      case Timeouts(script) => Swept(w, w', now, script)
      case ClientExit(c) => Leaves(w, w', c)
    }
  }

  lemma DnsAnswers(w: World, w': World, c: Client, now: int, exits: seq<Client>)
    requires c in w.queries && DnsAnswered(w, w', c, now, exits)
    ensures Inv(w') && w.ended <= w'.ended
  {
    hide Inv;
  }

  lemma IdentAnswers(w: World, fd: nat, now: int, exits: seq<Client>)
    requires Inv(w) && fd in w.socks && w.socks[fd].id in w.live && w.live[w.socks[fd].id].fd == Some(fd) && DoingAuth(w.live[w.socks[fd].id])
    ensures var w' := IdentOver(w, w.socks[fd].id, now, exits);
            Inv(w') && w.ended <= w'.ended && IdentEnds(w, w', fd, now, exits)
  {
    hide Inv, IdentOver, OnlyOne;
    var id := w.socks[fd].id;
    IdentOverKeeps(w, id, now, exits);
  }

  lemma TriedAnswers(w: World, fd: nat, t: Try, now: int, exits: seq<Client>)
    requires Inv(w) && fd in w.socks && w.socks[fd].id in w.live && w.live[w.socks[fd].id].fd == Some(fd) && w.live[w.socks[fd].id].connecting
    ensures var w' := Tried(w, w.socks[fd].id, t, now, exits);
            && Inv(w') && w.ended <= w'.ended
            && (t.Pending? ==> w' == w) && (t == Up(Again) ==> IdentReads(w, w', fd))
            && (!t.Pending? && t != Up(Again) ==> IdentEnds(w, w', fd, now, exits))
  {
    hide Inv, Tried;
    var id := w.socks[fd].id;
    TriedKeeps(w, id, t, now, exits);
    if !t.Pending? && t != Up(Again) {
      SockGone(w, Tried(w, id, t, now, exits), id);
    }
  }

  lemma ExitLeaves(w: World, c: Client)
    requires Inv(w)
    ensures Leaves(w, Exited(w, c), c)
  {
    hide Books, Links, Exited;
    ExitedKeeps(w, c);
    ExitedLive(w, c);
  }

  /** The event is a sweep that meets a freed entry. */
  predicate Breaks(live: map<Id, Req>, poll: seq<Id>, now: int, e: Event)
    requires forall id :: id in poll ==> id in live
  {
    e.Timeouts? && MeetsFreed(live, poll, now, e.script)
  }

  lemma InvCore(w: World)
    requires Inv(w)
    ensures Core(w)
  {
  }

  /** What the sweep has still to do is on the list, each entry once. */
  lemma TodoHolds(w: World, done: seq<Id>, todo: seq<Id>)
    requires Core(w) && w.poll == done + todo
    ensures Distinct(todo) && forall id :: id in todo ==> id in w.live
  {
    hide Links;
    forall i, j | 0 <= i < j < |todo| ensures todo[i] != todo[j] {
      assert w.poll[|done| + i] != w.poll[|done| + j];
    }
  }

  /**
   In the middle of a sweep: `done` are the entries before the current one, `todo` the others,
   and the rest of the sweep meets a freed entry if and only if the whole one does.
   */
  ghost predicate Sweeping(w0: World, w: World, now: int, script: Id -> seq<Client>, done: seq<Id>, todo: seq<Id>, meets: bool) {
    && Inv(w) && Fewer(w0, w) && w.poll == done + todo
    && (forall id :: id in done && id in w.live ==> w.live[id].deadline >= now)
    && (forall id :: id in todo ==> id in w0.live) && MeetsFreed(w0.live, todo, now, script) == meets
  }

  lemma SweepStarts(w: World, now: int, script: Id -> seq<Client>)
    requires Inv(w)
    ensures forall id :: id in w.poll ==> id in w.live
    ensures Sweeping(w, w, now, script, [], w.poll, MeetsFreed(w.live, w.poll, now, script))
  {
    hide Books, Links, Fewer, MeetsFreed;
    FewerSelf(w);
    PollHolds(w);
    assert [] + w.poll == w.poll;
  }

  lemma SweepEnds(w0: World, w: World, now: int, script: Id -> seq<Client>, done: seq<Id>, meets: bool)
    requires Sweeping(w0, w, now, script, done, [], meets)
    ensures Inv(w) && Fewer(w0, w) && !meets && forall id :: id in w.live ==> w.live[id].deadline >= now
  {
    hide Books, Links, Fewer;
    PollHolds(w);
    NothingTodo(w0.live, now, script);
    assert done + [] == done;
  }

  lemma NothingSwept(w: World, now: int, script: Id -> seq<Client>)
    ensures AllSweptAway(w, w, now, script)
  {
  }

  lemma SweepIsDone(w0: World, w: World, now: int, script: Id -> seq<Client>)
    requires Inv(w) && Fewer(w0, w) && AllSweptAway(w0, w, now, script) && forall id :: id in w.live ==> w.live[id].deadline >= now
    ensures Swept(w0, w, now, script)
  {
    hide Inv, SweptAway;
  }

  lemma NothingAfterLast(todo: seq<Id>, ids: set<Id>)
    requires todo != []
    ensures |todo| == 1 ==> Kept(todo[1..], ids) == []
  {
  }

  lemma NotYet(live: map<Id, Req>, todo: seq<Id>, now: int, script: Id -> seq<Client>)
    requires todo != [] && (forall id :: id in todo ==> id in live) && live[todo[0]].deadline >= now
    ensures MeetsFreed(live, todo, now, script) == MeetsFreed(live, todo[1..], now, script)
  {
  }

  lemma NothingTodo(live: map<Id, Req>, now: int, script: Id -> seq<Client>)
    ensures !MeetsFreed(live, [], now, script)
  {
  }

  class Auth {
    var live: map<Id, Req>
    var poll: seq<Id>
    var queries: map<Client, Id>
    var socks: map<nat, Sock>
    var ended: seq<End>
    var next: Id

    ghost function W(): World
      reads this
    {
      World(live, poll, queries, socks, ended, next)
    }

    /** init_auth */
    constructor ()
      ensures Inv(W()) && next == 0
    {
      live, poll, queries, socks, ended, next := map[], [], map[], map[], [], 0;
    }

    /** delete_identd_queries */
    method DeleteIdentdQueries(c: Client)
      modifies this
      ensures W() == DeleteIdent(old(W()), c, old(poll))
    {
      hide Ended;
      var list := poll;
      for i := 0 to |list|
        invariant DeleteIdent(W(), c, list[i..]) == DeleteIdent(old(W()), c, list)
      {
        assert list[i..][0] == list[i] && list[i..][1..] == list[i + 1..];
        if list[i] in live && live[list[i]].client == c {
          Free(Discarded(list[i]));
        }
      }
    }

    /** Socket and query are closed, the request is unlinked and freed. */
    method Free(e: End)
      requires e.id in live
      modifies this
      ensures W() == Ended(old(W()), e)
    {
      var r := live[e.id];
      if r.fd.Some? {
        socks := socks - {r.fd.value};
      }
      queries := queries - {r.client};
      poll := Without(poll, e.id);
      live := live - {e.id};
      ended := ended + [e];
    }

    /** What exit_client does here */
    method ExitClient(c: Client)
      modifies this
      ensures W() == Exited(old(W()), c)
    {
      queries := queries - {c};
      DeleteIdentdQueries(c);
    }

    /** The request is freed, then release_auth_client */
    method Release(id: Id, now: int, exits: seq<Client>)
      requires id in live
      modifies this
      ensures W() == Let(old(W()), id, now, exits)
    {
      hide Ended, Exited;
      Free(Released(id, live[id], now));
      ghost var w := W();
      for i := 0 to |exits|
        invariant Reacted(W(), exits[i..]) == Reacted(w, exits)
      {
        assert exits[i..][0] == exits[i] && exits[i..][1..] == exits[i + 1..];
        ExitClient(exits[i]);
      }
    }

    /** auth_error, and the part of read_auth_reply after the reply is stored */
    method EndIdent(id: Id, now: int, exits: seq<Client>)
      requires id in live
      modifies this
      ensures W() == IdentOver(old(W()), id, now, exits)
    {
      hide Let;
      if live[id].fd.Some? {
        socks := socks - {live[id].fd.value};
      }
      live := live[id := live[id].(fd := None)];
      live := live[id := live[id].(connecting := false, pending := false)];
      assert W() == IdentDone(old(W()), id);
      if !live[id].dns {
        Release(id, now, exits);
      }
    }

    /** auth_connect_callback, and read_auth_reply that it calls */
    method ConnectCallback(id: Id, t: Try, now: int, exits: seq<Client>)
      requires id in live && live[id].fd.Some?
      modifies this
      ensures W() == Tried(old(W()), id, t, now, exits)
    {
      hide IdentOver;
      match t {
        case Pending =>
        case Failed => EndIdent(id, now, exits);
        case Up(recv) =>
          live := live[id := live[id].(connecting := false)];
          live := live[id := live[id].(pending := true)];
          socks := socks[live[id].fd.value := Reading(id)];
          assert W() == Connected(old(W()), id);
          if recv.Got? {
            EndIdent(id, now, exits);
          }
      }
    }

    /** start_auth; `fd` is the ident socket, if start_auth_query gets that far */
    method StartAuth(c: Client, fd: Option<nat>, t: Try, now: int)
      requires Inv(W()) && NewClient(W(), c) && (fd.Some? ==> fd.value !in socks)
      modifies this
      ensures Inv(W()) && W() == Started(old(W()), c, fd, t, now) && old(next) in live && ended == old(ended)
    {
      hide Books, Links, Tried, Let;
      var id := next;
      MadeKeeps(W(), c, fd, now);
      next := next + 1;
      live := live[id := Req(c, None, false, false, false, now + CONNECTTIMEOUT)];
      queries := queries[c := id];
      live := live[id := live[id].(dns := true)];
      ghost var w := Made(old(W()), c, fd, now);
      if fd.Some? {
        live := live[id := live[id].(fd := fd, connecting := true)];
        socks := socks[fd.value := Connecting(id)];
        assert live == w.live;
        TriedKeeps(w, id, t, now, []);
        ghost var before := W();
        ConnectCallback(id, t, now, []);
        StartsFirst(before, w, id, t, now);
      } else {
        assert live == w.live;
      }
      poll := [id] + poll;
    }

    /** auth_dns_callback */
    method DnsCallback(c: Client, now: int, exits: seq<Client>)
      requires Inv(W()) && c in queries
      modifies this
      ensures W() == DnsOver(old(W()), old(queries[c]), now, exits)
      ensures DnsAnswered(old(W()), W(), c, now, exits)
    {
      hide Books, Links, Let, IsReleased;
      QueryIs(W(), c);
      var id := queries[c];
      DnsOverKeeps(W(), id, now, exits);
      live := live[id := live[id].(dns := false)];
      queries := queries - {c};
      assert W() == DnsDone(old(W()), id);
      if !DoingAuth(live[id]) {
        Release(id, now, exits);
      }
    }

    /** The sweep releases the client of an expired entry: what is left to be done of its list. */
    method ReleaseExpired(id: Id, now: int, script: Id -> seq<Client>, ghost w0: World, ghost done: seq<Id>, ghost todo: seq<Id>)
      requires Inv(W()) && Fewer(w0, W()) && poll == done + todo && todo != [] && id == todo[0] && id in live && live[id].deadline < now
      requires Distinct(todo) && (forall id :: id in todo ==> id in live && id in w0.live) && AllSweptAway(w0, W(), now, script)
      modifies this
      ensures AllSweptAway(w0, W(), now, script)
      ensures Inv(W()) && Fewer(w0, W()) && (forall k :: k in live ==> k in old(live) && live[k] == old(live)[k])
      ensures var rest := Kept(todo[1..], live.Keys);
              && poll == Kept(done, live.Keys) + rest && |rest| < |todo| && (forall id :: id in rest ==> id in w0.live)
              && (|todo| > 1 && todo[1] in live ==> rest != [] && rest[0] == todo[1])
              && MeetsFreed(w0.live, todo, now, script) ==
                 ((|todo| > 1 && todo[1] !in live) || MeetsFreed(w0.live, rest, now, script))
    {
      hide Inv, Let, Fewer, Kept, MeetsFreed, Distinct, AllSweptAway;
      ghost var w := W();
      SweptSame(w0, w);
      SweepMore(w0, w, todo[0], now, script);
      LetExpired(w, todo[0], now, script(todo[0]));
      SweptLeft(w0.live, w, todo, now, script);
      Release(id, now, script(id));
      SweptOn(w, W(), done, todo);
      FewerMore(w0, w, W());
      SweptSame(w, W());
    }

    /** One entry of the sweep; `ptr` is the entry that was fetched as the next one. */
    method SweepNext(id: Id, now: int, script: Id -> seq<Client>, ghost w0: World, ghost done: seq<Id>, ghost todo: seq<Id>, ghost meets: bool)
      returns (ptr: Option<Id>, stale: bool, ghost done': seq<Id>, ghost todo': seq<Id>)
      requires Sweeping(w0, W(), now, script, done, todo, meets) && todo != [] && id == todo[0] && AllSweptAway(w0, W(), now, script)
      modifies this
      ensures Inv(W()) && Fewer(w0, W()) && (stale ==> meets) && AllSweptAway(w0, W(), now, script)
      ensures !stale ==> Sweeping(w0, W(), now, script, done', todo', meets) && |todo'| < |todo|
      ensures !stale ==> ptr == if todo' == [] then None else Some(todo'[0])
    {
      hide Inv, Fewer, Behind, Kept, MeetsFreed, Distinct, AllSweptAway;
      done', todo', stale := done, todo, false;
      InvCore(W());
      PollHolds(W());
      BehindIs(done, todo);
      TodoHolds(W(), done, todo);
      SweptSame(w0, W());
      ptr := Behind(poll, id);
      if live[id].deadline < now {
        ReleaseExpired(id, now, script, w0, done, todo);
        if ptr.Some? && ptr.value !in live {
          stale := true;
          return;
        }
        done', todo' := Kept(done, live.Keys), Kept(todo[1..], live.Keys);
        NothingAfterLast(todo, live.Keys);
      } else {
        NotYet(w0.live, todo, now, script);
        done', todo' := done + [id], todo[1..];
      }
    }

    /**
     timeout_auth_queries_event. `script` says which clients exit while a client is released. The
     successor in the list is fetched before that; if it is discarded meanwhile, the code goes on
     with a freed entry, and the model stops: `stale`, exactly as the list, the deadlines and the
     script say.
     */
    method Sweep(now: int, script: Id -> seq<Client>) returns (stale: bool)
      requires Inv(W())
      modifies this
      ensures Inv(W()) && Fewer(old(W()), W()) && AllSweptAway(old(W()), W(), now, script)
      ensures !stale ==> Swept(old(W()), W(), now, script)
      ensures (forall id :: id in old(poll) ==> id in old(live)) && stale == MeetsFreed(old(live), old(poll), now, script)
    {
      hide Sweeping, MeetsFreed, Inv, Fewer, AllSweptAway, Swept;
      NothingSwept(W(), now, script);
      ghost var done, todo := [], poll;
      SweepStarts(W(), now, script);
      var ptr := if poll == [] then None else Some(poll[0]);
      stale := false;
      while ptr.Some?
        invariant Sweeping(old(W()), W(), now, script, done, todo, MeetsFreed(old(live), old(poll), now, script))
        invariant ptr == (if todo == [] then None else Some(todo[0])) && AllSweptAway(old(W()), W(), now, script)
        decreases |todo|
      {
        ptr, stale, done, todo := SweepNext(ptr.value, now, script, old(W()), done, todo, MeetsFreed(old(live), old(poll), now, script));
        if stale {
          return;
        }
      }
      SweepEnds(old(W()), W(), now, script, done, MeetsFreed(old(live), old(poll), now, script));
      SweepIsDone(old(W()), W(), now, script);
    }

    /**
     One event; those that nothing waits for do not happen. `stale`: the sweep of this event goes
     on with a freed entry.
     */
    method Do(e: Event, now: int, exits: seq<Client>) returns (stale: bool)
      requires Inv(W())
      modifies this
      ensures Inv(W()) && old(ended) <= ended
      ensures (forall id :: id in old(poll) ==> id in old(live)) && stale == Breaks(old(live), old(poll), now, e)
      ensures !stale ==> Follows(old(W()), e, now, exits, W())
    {
      hide Books, Links, Let, Tried, Made, MeetsFreed, IsReleased, WaitsOn, Started, Exited, Swept;
      stale := false;
      PollHolds(W());
      match e {
        case Start(c, fd, t) =>
          if (forall id :: id in live ==> live[id].client != c) && (fd.Some? ==> fd.value !in socks) {
            StartAuth(c, fd, t, now);
          }
        case DnsReply(c) =>
          if c in queries {
            DnsCallback(c, now, exits);
            DnsAnswers(old(W()), W(), c, now, exits);
          }
        case ConnectResult(fd, t) =>
          if fd in socks && socks[fd].Connecting? {
            SockIs(W(), fd);
            TriedAnswers(W(), fd, t, now, exits);
            ConnectCallback(socks[fd].id, t, now, exits);
          }
        case Readable(fd, recv) =>
          if fd in socks && socks[fd].Reading? {
            SockIs(W(), fd);
            if recv.Got? {
              IdentAnswers(W(), fd, now, exits);
              EndIdent(socks[fd].id, now, exits);
            }
          }
        case Timeouts(script) =>
          stale := Sweep(now, script);
          FewerEnded(old(W()), W());
        case ClientExit(c) =>
          ExitedKeeps(W(), c);
          ExitLeaves(W(), c);
          ExitClient(c);
      }
    }

    /**
     Any run, up to the first sweep that goes on with a freed entry, if there is one: each request
     that was started is still live, waiting for a lookup, or was released or discarded exactly
     once, and whatever can still call back belongs to a live request. There is no such sweep if
     clients that a sweep releases make nobody exit but themselves.
     */
    method Run(events: seq<(Event, int, seq<Client>)>) returns (done: nat, stale: bool, ghost at: World, ghost trace: seq<World>)
      requires Inv(W())
      modifies this
      ensures Inv(W()) && old(ended) <= ended && done <= |events|
      ensures |trace| == done + 1 && trace[0] == old(W()) && trace[done] == if stale then at else W()
      ensures forall k :: 0 <= k < done ==> Follows(trace[k], events[k].0, events[k].1, events[k].2, trace[k + 1])
      ensures if stale then done < |events| && events[done].0.Timeouts? else done == |events|
      ensures stale ==> (forall id :: id in at.poll ==> id in at.live) && Breaks(at.live, at.poll, events[done].1, events[done].0)
      ensures stale ==> Inv(at) && !OwnOnly(at.live, events[done].0.script)
    {
      hide Inv, OwnOnly, MeetsFreed, Follows;
      done, stale, at, trace := 0, false, W(), [W()];
      while done < |events|
        invariant done <= |events| && Inv(W()) && old(ended) <= ended
        invariant |trace| == done + 1 && trace[0] == old(W()) && trace[done] == W()
        invariant forall k :: 0 <= k < done ==> Follows(trace[k], events[k].0, events[k].1, events[k].2, trace[k + 1])
      {
        at := W();
        stale := Do(events[done].0, events[done].1, events[done].2);
        if stale {
          if OwnOnly(at.live, events[done].0.script) {
            SafeSweep(at, events[done].1, events[done].0.script);
          }
          return;
        }
        trace := trace + [W()];
        done := done + 1;
      }
    }
  }
}
