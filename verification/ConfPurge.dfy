/**
 Configuration items that clients are attached to, and how a rehash replaces them in place
 (newconf/config.c, server/s_conf.c, server/s_boot.c, src/confitem.c).
 */
module ConfPurge {
  import opened LinkedLists

  type Id = nat
  type Client = nat

  /** A struct ConfItem: its reference count, whether it is a CONF_CLIENT item, and CONF_ILLEGAL. */
  datatype Item = Item(clients: int, client: bool, illegal: bool)

  /**
   `items` are the items that are allocated, `list` is GlobalConfItemList, `attached` which client
   holds which item in its list of confs, `freed` the items that were freed.
   */
  datatype World = World(items: map<Id, Item>, list: seq<Id>, attached: set<(Client, Id)>, freed: seq<Id>, next: Id)

  // ------------------------------------------------------------------------------------
  // What holds at every point
  // ------------------------------------------------------------------------------------

  ghost function Holders(attached: set<(Client, Id)>, id: Id): set<(Client, Id)> {
    set p | p in attached && p.1 == id
  }

  /** Items are on the list or wait for their last client; all others were freed, once. */
  ghost predicate Books(items: map<Id, Item>, list: seq<Id>, freed: seq<Id>, next: Id) {
    && Distinct(list) && (forall id :: id in list ==> id in items)
    && Distinct(freed) && (forall id: Id :: id in freed <==> id < next && id !in items)
    && (forall id :: id in items ==> id < next)
    && (forall id :: id in items && id !in list ==> items[id].illegal && items[id].clients > 0)
  }

  /** The counts are right, and no client holds an item that was freed. */
  ghost predicate Counts(items: map<Id, Item>, attached: set<(Client, Id)>) {
    && (forall id :: id in items ==> items[id].clients == |Holders(attached, id)|)
    && (forall p :: p in attached ==> p.1 in items)
  }

  ghost predicate Core(w: World) {
    Books(w.items, w.list, w.freed, w.next) && Counts(w.items, w.attached)
  }

  /** Outside of a rehash the list holds no item that is to be deleted. */
  ghost predicate Inv(w: World) {
    Core(w) && forall id :: id in w.list && id in w.items ==> !w.items[id].illegal
  }

  // ------------------------------------------------------------------------------------
  // Lists
  // ------------------------------------------------------------------------------------

  lemma {:induction false} KeptMore(s: seq<Id>, x: Id, ids: set<Id>)
    ensures Kept(s + [x], ids) == Kept(s, ids) + if x in ids then [x] else []
  {
    if s == [] {
      assert s + [x] == [x];
    } else {
      assert (s + [x])[1..] == s[1..] + [x];
      KeptMore(s[1..], x, ids);
    }
  }

  // ------------------------------------------------------------------------------------
  // Purge, additions, flush
  // ------------------------------------------------------------------------------------

  function Idle(items: map<Id, Item>): set<Id> {
    set id | id in items && items[id].clients == 0
  }

  function Staying(items: map<Id, Item>): set<Id> {
    set id | id in items && items[id].clients != 0 && items[id].client
  }

  function Illegal(items: map<Id, Item>): set<Id> {
    set id | id in items && items[id].illegal
  }

  function Legal(items: map<Id, Item>): set<Id> {
    set id | id in items && !items[id].illegal
  }

  /** The items of `ids` without clients are gone, the others are marked. */
  function PurgedItems(items: map<Id, Item>, ids: seq<Id>): map<Id, Item> {
    map id | id in items && !(id in ids && items[id].clients == 0) ::
      if id in ids then items[id].(illegal := true) else items[id]
  }

  /** What the purge loop of read_conf_files leaves. */
  function Purged(w: World): World {
    w.(items := PurgedItems(w.items, w.list),
       list := Kept(w.list, Staying(w.items)),
       freed := w.freed + Kept(w.list, Idle(w.items)))
  }

  /** conf_add_conf of an item that the parser has just made */
  function Added(w: World, client: bool): World {
    w.(items := w.items[w.next := Item(0, client, false)], list := [w.next] + w.list, next := w.next + 1)
  }

  function AddedAll(w: World, adds: seq<bool>): World
    decreases |adds|
  {
    if adds == [] then w else AddedAll(Added(w, adds[0]), adds[1..])
  }

  /** Marked items without clients. */
  function Doomed(items: map<Id, Item>): set<Id> {
    Illegal(items) * Idle(items)
  }

  /** The doomed items of `ids` are gone. */
  function FlushedItems(items: map<Id, Item>, ids: seq<Id>): map<Id, Item> {
    items - set id | id in Kept(ids, Doomed(items))
  }

  /** What flush_deleted_I_P leaves. */
  function Flushed(w: World): World {
    w.(items := FlushedItems(w.items, w.list),
       list := Kept(w.list, Legal(w.items)),
       freed := w.freed + Kept(w.list, Doomed(w.items)))
  }

  /** The two openings of the configuration file. */
  datatype Opens = NeverOpens | OpensOnce | OpensTwice

  /** rehash(): what becomes of the items, with the additions of the two passes of the parser. */
  function Rehashed(w: World, opens: Opens, first: seq<bool>, second: seq<bool>): World {
    match opens {
      case NeverOpens => Flushed(w)
      case OpensOnce => Flushed(AddedAll(Purged(w), first))
      case OpensTwice => Flushed(AddedAll(AddedAll(Purged(w), first), second))
    }
  }

  lemma PurgedBooks(w: World)
    requires Core(w)
    ensures Books(Purged(w).items, Purged(w).list, Purged(w).freed, w.next)
  {
    var w' := Purged(w);
    KeptDistinct(w.list, Staying(w.items));
    KeptDistinct(w.list, Idle(w.items));
    DistinctAppend(w.freed, Kept(w.list, Idle(w.items)));
    forall id | id in w'.items && id !in w'.list ensures w'.items[id].illegal && w'.items[id].clients > 0 {
      assert w.items[id].clients == |Holders(w.attached, id)|;
    }
  }

  lemma PurgedCounts(items: map<Id, Item>, attached: set<(Client, Id)>, ids: seq<Id>)
    requires Counts(items, attached)
    ensures Counts(PurgedItems(items, ids), attached)
  {
    forall p | p in attached ensures p.1 in PurgedItems(items, ids) {
      assert p in Holders(attached, p.1);
    }
  }

  /**
   The purge keeps every item that a client holds, and frees the others once. What is kept is marked,
   and only CONF_CLIENT items stay on the list.
   */
  lemma PurgedKeeps(w: World)
    requires Core(w)
    ensures Core(Purged(w)) && (forall id :: id in Purged(w).items && id in Purged(w).list ==> Purged(w).items[id].illegal)
    ensures forall id :: id in Purged(w).list <==> id in w.list && id in w.items && w.items[id].clients != 0 && w.items[id].client
    ensures forall id :: id in Purged(w).items <==> id in w.items && !(id in w.list && w.items[id].clients == 0)
    ensures forall id :: id in Purged(w).items ==>
              Purged(w).items[id] == if id in w.list then w.items[id].(illegal := true) else w.items[id]
  {
    hide Counts, Books;
    PurgedBooks(w);
    PurgedCounts(w.items, w.attached, w.list);
  }

  lemma AddedKeeps(w: World, client: bool)
    requires Core(w)
    ensures w.next !in w.items && w.next !in w.list && Core(Added(w, client))
  {
    var w' := Added(w, client);
    assert Holders(w.attached, w.next) == {};
  }

  lemma FlushedBooks(w: World)
    requires Core(w)
    ensures Books(Flushed(w).items, Flushed(w).list, Flushed(w).freed, w.next)
  {
    var dead := Kept(w.list, Doomed(w.items));
    KeptDistinct(w.list, Legal(w.items));
    KeptDistinct(w.list, Doomed(w.items));
    DistinctAppend(w.freed, dead);
    var w' := Flushed(w);
    forall id | id in w'.items && id !in w'.list ensures w'.items[id].illegal && w'.items[id].clients > 0 {
      assert w.items[id].clients == |Holders(w.attached, id)|;
    }
  }

  /** The flush takes what is marked off the list, and frees of that what no client holds. */
  lemma FlushedKeeps(w: World)
    requires Core(w)
    ensures Inv(Flushed(w))
    ensures forall id :: id in Flushed(w).list <==> id in w.list && id in w.items && !w.items[id].illegal
    ensures forall id :: id in Flushed(w).items <==> id in w.items && !(id in w.list && w.items[id].illegal && w.items[id].clients == 0)
    ensures forall id :: id in Flushed(w).items ==> Flushed(w).items[id] == w.items[id]
  {
    hide Books;
    FlushedBooks(w);
    var w' := Flushed(w);
    forall p | p in w.attached ensures p.1 in w'.items {
      assert p in Holders(w.attached, p.1);
    }
  }

  /** The ids from `from` on, the last first: what is left when `n` items are put in front one by one. */
  function Down(from: Id, n: nat): seq<Id> {
    if n == 0 then [] else [from + n - 1] + Down(from, n - 1)
  }

  lemma {:induction false} DownBottom(from: Id, n: nat)
    requires n > 0
    ensures Down(from, n) == Down(from + 1, n - 1) + [from]
    decreases n
  {
    if n > 1 {
      DownBottom(from, n - 1);
    }
  }

  lemma {:induction false} DownMembers(from: Id, n: nat)
    ensures forall x :: x in Down(from, n) <==> from <= x < from + n
    decreases n
  {
    if n > 0 {
      DownMembers(from, n - 1);
    }
  }

  lemma {:induction false} DownSum(from: Id, m: nat, n: nat)
    ensures Down(from + m, n) + Down(from, m) == Down(from, m + n)
    decreases n
  {
    if n > 0 {
      DownSum(from, m, n - 1);
    }
  }

  /** What the additions of the parser leave: the new items in front, the rest untouched. */
  ghost predicate Grown(w: World, w': World, adds: seq<bool>) {
    && w'.list == Down(w.next, |adds|) + w.list && w'.next == w.next + |adds| && w'.freed == w.freed && w'.attached == w.attached
    && (forall id :: id in w'.items <==> id in w.items || w.next <= id < w.next + |adds|)
    && (forall id :: id in w.items ==> w'.items[id] == w.items[id])
    && (forall id :: w.next <= id < w.next + |adds| ==> w'.items[id] == Item(0, adds[id - w.next], false))
  }

  lemma {:induction false} AddedAllKeeps(w: World, adds: seq<bool>)
    requires Core(w)
    ensures Core(AddedAll(w, adds)) && Grown(w, AddedAll(w, adds), adds)
    decreases |adds|
  {
    hide Core;
    if adds == [] {
      assert Down(w.next, 0) + w.list == w.list;
      CoreBelow(w);
    } else {
      AddedKeeps(w, adds[0]);
      CoreBelow(w);
      AddedAllKeeps(Added(w, adds[0]), adds[1..]);
      DownBottom(w.next, |adds|);
      assert Down(w.next, |adds|) + w.list == Down(w.next + 1, |adds| - 1) + ([w.next] + w.list);
    }
  }

  lemma CoreBelow(w: World)
    requires Core(w)
    ensures forall id :: id in w.items ==> id < w.next
  {
  }

  lemma GrownMore(w: World, w': World, w'': World, first: seq<bool>, second: seq<bool>)
    requires Grown(w, w', first) && Grown(w', w'', second)
    ensures Grown(w, w'', first + second)
  {
    var m, n := |first|, |second|;
    DownSum(w.next, m, n);
    assert Down(w'.next, n) + (Down(w.next, m) + w.list) == Down(w'.next, n) + Down(w.next, m) + w.list;
  }

  /** The list after the flush when everything that was on it before the additions is marked. */
  lemma FlushedList(w: World, w': World, adds: seq<bool>)
    requires Core(w) && Grown(w, w', adds) && forall id :: id in w.list && id in w.items ==> w.items[id].illegal && w.items[id].clients != 0
    ensures Flushed(w').list == Down(w.next, |adds|) && Flushed(w').freed == w.freed
    ensures Flushed(w').items == w'.items && Flushed(w').next == w'.next && Flushed(w').attached == w'.attached
  {
    hide Kept, Down, Books, Counts, Doomed, Legal;
    var added := Down(w.next, |adds|);
    OldAndNew(w, w', adds);
    KeptAppend(added, w.list, Legal(w'.items));
    KeptAll(added, Legal(w'.items));
    KeptNone(w.list, Legal(w'.items));
    KeptNone(w'.list, Doomed(w'.items));
    assert w'.items - {} == w'.items;
    assert (set id | id in Kept(w'.list, Doomed(w'.items))) == {};
  }

  /** What a flush keeps of the additions and of the items before them. */
  lemma OldAndNew(w: World, w': World, adds: seq<bool>)
    requires Core(w) && Grown(w, w', adds) && forall id :: id in w.list && id in w.items ==> w.items[id].illegal && w.items[id].clients != 0
    ensures forall id :: id in Down(w.next, |adds|) ==> id in Legal(w'.items)
    ensures forall id :: id in w.list ==> id !in Legal(w'.items)
    ensures forall id :: id in w'.list ==> id !in Doomed(w'.items)
  {
    hide Counts;
    DownMembers(w.next, |adds|);
    assert forall id :: id in w'.list <==> id in Down(w.next, |adds|) || id in w.list;
  }

  /** What a successful opening makes of the list, the freed items, and the items that clients hold. */
  ghost predicate Replaced(w: World, w': World, adds: seq<bool>) {
    && w'.list == Down(w.next, |adds|) && w'.next == w.next + |adds| && w'.attached == w.attached
    && w'.freed == w.freed + Kept(w.list, Idle(w.items))
    && ReplacedItems(w.items, w'.items, w.next, adds)
  }

  /** Items that clients hold are marked, those that nobody holds are gone, and the additions are new. */
  ghost predicate ReplacedItems(items: map<Id, Item>, items': map<Id, Item>, next: Id, adds: seq<bool>) {
    && (forall id :: id in items ==> (id in items' <==> items[id].clients != 0))
    && (forall id :: id in items && items[id].clients != 0 ==> items'[id] == items[id].(illegal := true))
    && (forall id :: id in items' ==> id in items || next <= id < next + |adds|)
    && (forall k :: 0 <= k < |adds| ==> next + k in items' && items'[next + k] == Item(0, adds[k], false))
  }

  /**
   After a rehash the list holds exactly the items that the parser has added, the last first. Each
   old item without clients was freed, once; each item with clients is still there, marked to be
   deleted with its last client. If the file opens only once, the additions are those of one pass;
   if it does not open, nothing changes.
   */
  lemma RehashedKeeps(w: World, opens: Opens, first: seq<bool>, second: seq<bool>)
    requires Inv(w)
    ensures var w' := Rehashed(w, opens, first, second);
            && Inv(w')
            && (opens.NeverOpens? ==> w' == w)
            && (opens.OpensOnce? ==> Replaced(w, w', first))
            && (opens.OpensTwice? ==> Replaced(w, w', first + second))
  {
    hide Books, Counts, Purged, Flushed, AddedAll;
    if opens.NeverOpens? {
      FlushedKeeps(w);
      FlushedNothing(w);
    } else {
      PurgedKeeps(w);
      var w1 := AddedAll(Purged(w), first);
      AddedAllKeeps(Purged(w), first);
      if opens.OpensOnce? {
        FlushedKeeps(w1);
        RehashedOnce(w, w1, first);
      } else {
        AddedAllKeeps(w1, second);
        var w2 := AddedAll(w1, second);
        GrownMore(Purged(w), w1, w2, first, second);
        FlushedKeeps(w2);
        RehashedOnce(w, w2, first + second);
      }
    }
  }

  lemma FlushedNothing(w: World)
    requires Inv(w)
    ensures Flushed(w) == w
  {
    KeptAll(w.list, Legal(w.items));
    KeptNone(w.list, Doomed(w.items));
  }

  lemma PurgedMarks(w: World)
    requires Inv(w)
    ensures var p := Purged(w);
            && p.freed == w.freed + Kept(w.list, Idle(w.items)) && p.next == w.next && p.attached == w.attached
            && (forall id :: id in p.list && id in p.items ==> p.items[id].illegal && p.items[id].clients != 0)
            && (forall id :: id in p.items <==> id in w.items && w.items[id].clients != 0)
            && (forall id :: id in p.items ==> p.items[id] == w.items[id].(illegal := true))
  {
    hide Counts;
  }

  lemma ItemsReplaced(w: World, p: World, w1: World, adds: seq<bool>)
    requires Grown(p, w1, adds) && p.next == w.next && forall id :: id in w.items ==> id < w.next
    requires forall id :: id in p.items <==> id in w.items && w.items[id].clients != 0
    requires forall id :: id in p.items ==> p.items[id] == w.items[id].(illegal := true)
    ensures ReplacedItems(w.items, w1.items, w.next, adds)
  {
    hide Down;
    forall k | 0 <= k < |adds| ensures w.next + k in w1.items && w1.items[w.next + k] == Item(0, adds[k], false) {
      assert (w.next + k) - w.next == k;
    }
  }

  lemma RehashedOnce(w: World, w1: World, adds: seq<bool>)
    requires Inv(w) && Core(Purged(w)) && Grown(Purged(w), w1, adds)
    ensures Replaced(w, Flushed(w1), adds)
  {
    hide Core, Kept, Flushed, Down, Idle, Purged, ReplacedItems;
    CoreBelow(w);
    PurgedMarks(w);
    ItemsReplaced(w, Purged(w), w1, adds);
    FlushedList(Purged(w), w1, adds);
  }

  // ------------------------------------------------------------------------------------
  // Attaching and detaching
  // ------------------------------------------------------------------------------------

  /** attach_conf */
  function Attached(w: World, c: Client, id: Id): World
    requires id in w.items
  {
    if (c, id) in w.attached || w.items[id].illegal then w
    else w.(items := w.items[id := w.items[id].(clients := w.items[id].clients + 1)], attached := w.attached + {(c, id)})
  }

  /** detach_conf */
  function Detached(w: World, c: Client, id: Id): World
    requires id in w.items
  {
    if (c, id) !in w.attached then w
    else
      var item := w.items[id].(clients := w.items[id].clients - 1);
      var w1 := w.(attached := w.attached - {(c, id)});
      if item.clients == 0 && item.illegal then w1.(items := w.items - {id}, freed := w.freed + [id])
      else w1.(items := w.items[id := item])
  }

  lemma AttachedKeeps(w: World, c: Client, id: Id)
    requires Inv(w) && id in w.items
    ensures Inv(Attached(w, c, id))
  {
    hide Holders;
    var w' := Attached(w, c, id);
    if w' != w {
      assert w'.items.Keys == w.items.Keys;
      forall k | k in w'.items ensures w'.items[k].clients == |Holders(w'.attached, k)| {
        AttachedCount(w, c, id, k);
      }
    }
  }

  lemma AttachedCount(w: World, c: Client, id: Id, k: Id)
    requires Counts(w.items, w.attached) && id in w.items && (c, id) !in w.attached && k in w.items
    ensures |Holders(w.attached + {(c, id)}, k)| == w.items[k].clients + (if k == id then 1 else 0)
  {
    assert Holders(w.attached + {(c, id)}, k) == Holders(w.attached, k) + if k == id then {(c, id)} else {};
  }

  lemma DetachedCount(w: World, c: Client, id: Id, k: Id)
    requires Counts(w.items, w.attached) && id in w.items && (c, id) in w.attached && k in w.items
    ensures |Holders(w.attached - {(c, id)}, k)| == w.items[k].clients - (if k == id then 1 else 0)
  {
    assert Holders(w.attached - {(c, id)}, k) == Holders(w.attached, k) - {(c, id)};
    assert (c, id) in Holders(w.attached, k) <==> k == id;
  }

  /** The last client of an item that is to be deleted takes it along; the list does not mention it. */
  lemma DetachedKeeps(w: World, c: Client, id: Id)
    requires Inv(w) && id in w.items
    ensures Inv(Detached(w, c, id))
  {
    hide Holders;
    var w' := Detached(w, c, id);
    if w' != w {
      DetachedCount(w, c, id, id);
      forall k | k in w'.items ensures w'.items[k].clients == |Holders(w'.attached, k)| {
        DetachedCount(w, c, id, k);
      }
      if id !in w'.items {
        DistinctAppend(w.freed, [id]);
        HeldByNobody(w'.attached, id);
      }
    }
  }

  lemma HeldByNobody(attached: set<(Client, Id)>, id: Id)
    requires |Holders(attached, id)| == 0
    ensures forall p :: p in attached ==> p.1 != id
  {
    forall p | p in attached ensures p.1 != id {
      assert p.1 == id ==> p in Holders(attached, id);
    }
  }

  // ------------------------------------------------------------------------------------
  // What a step does
  // ------------------------------------------------------------------------------------

  datatype Step =
    | Attach(c: Client, id: Id)
    | Detach(c: Client, id: Id)
    | Rehash(opens: Opens, first: seq<bool>, second: seq<bool>)

  /**
   A client that holds an item already, or asks for a marked one, changes nothing; else it becomes a
   holder. One that lets go is no holder any more, and frees the item if it was marked and the client
   its last one. A rehash replaces the list, if the file opens at all.
   */
  ghost predicate Follows(w: World, step: Step, w': World) {
    match step {
      case Attach(c, id) =>
        if id !in w.items || (c, id) in w.attached || w.items[id].illegal then w' == w
        else
          && w'.attached == w.attached + {(c, id)}
          && w'.items == w.items[id := w.items[id].(clients := w.items[id].clients + 1)]
          && w'.list == w.list && w'.freed == w.freed && w'.next == w.next
      case Detach(c, id) =>
        if id !in w.items || (c, id) !in w.attached then w' == w
        else
          && w'.attached == w.attached - {(c, id)} && w'.list == w.list && w'.next == w.next
          && if w.items[id].illegal && w.items[id].clients == 1 then w'.items == w.items - {id} && w'.freed == w.freed + [id]
             else w'.items == w.items[id := w.items[id].(clients := w.items[id].clients - 1)] && w'.freed == w.freed
      case Rehash(opens, first, second) =>
        if opens.NeverOpens? then w' == w else Replaced(w, w', if opens.OpensOnce? then first else first + second)
    }
  }

  // ------------------------------------------------------------------------------------
  // The code
  // ------------------------------------------------------------------------------------

  /** One more entry has been purged. */
  lemma PurgedMore(items: map<Id, Item>, done: seq<Id>, id: Id)
    requires id in items && id !in done
    ensures id in PurgedItems(items, done) && PurgedItems(items, done)[id] == items[id]
    ensures PurgedItems(items, done + [id]) ==
            if items[id].clients == 0 then PurgedItems(items, done) - {id}
            else PurgedItems(items, done)[id := items[id].(illegal := true)]
  {
  }

  lemma PurgeStarts(w: World)
    ensures PurgedItems(w.items, []) == w.items && Kept([], Staying(w.items)) == [] == Kept([], Idle(w.items))
  {
  }

  lemma NextIsNew(w: World, done: seq<Id>, rest: seq<Id>)
    requires Core(w) && w.list == done + rest && rest != []
    ensures rest[0] in w.items && rest[0] !in done
  {
    assert w.list[|done|] == rest[0] && rest[0] in w.list;
    assert forall k :: 0 <= k < |done| ==> done[k] == w.list[k] != w.list[|done|];
  }

  /** What the purge loop needs to know of the next entry. */
  lemma PurgeStep(w: World, done: seq<Id>, rest: seq<Id>)
    requires Core(w) && w.list == done + rest && rest != []
    ensures var id := rest[0];
            && id in w.items && id in PurgedItems(w.items, done) && PurgedItems(w.items, done)[id] == w.items[id]
            && PurgedItems(w.items, done + [id]) ==
               (if w.items[id].clients == 0 then PurgedItems(w.items, done) - {id}
                else PurgedItems(w.items, done)[id := w.items[id].(illegal := true)])
            && Kept(done + [id], Staying(w.items)) ==
               Kept(done, Staying(w.items)) + (if w.items[id].clients != 0 && w.items[id].client then [id] else [])
            && Kept(done + [id], Idle(w.items)) == Kept(done, Idle(w.items)) + (if w.items[id].clients == 0 then [id] else [])
  {
    hide PurgedItems;
    var id := rest[0];
    NextIsNew(w, done, rest);
    PurgedMore(w.items, done, id);
    KeptMore(done, id, Staying(w.items));
    KeptMore(done, id, Idle(w.items));
  }

  lemma FlushStarts(w: World)
    ensures FlushedItems(w.items, []) == w.items && Kept([], Legal(w.items)) == [] == Kept([], Doomed(w.items))
  {
  }

  lemma FlushStep(w: World, done: seq<Id>, rest: seq<Id>)
    requires Core(w) && w.list == done + rest && rest != []
    ensures var id := rest[0];
            && id in w.items && id in FlushedItems(w.items, done) && FlushedItems(w.items, done)[id] == w.items[id]
            && FlushedItems(w.items, done + [id]) ==
               (if w.items[id].illegal && w.items[id].clients == 0 then FlushedItems(w.items, done) - {id} else FlushedItems(w.items, done))
            && Kept(done + [id], Legal(w.items)) == Kept(done, Legal(w.items)) + (if !w.items[id].illegal then [id] else [])
            && Kept(done + [id], Doomed(w.items)) ==
               Kept(done, Doomed(w.items)) + (if w.items[id].illegal && w.items[id].clients == 0 then [id] else [])
  {
    hide FlushedItems;
    var id := rest[0];
    NextIsNew(w, done, rest);
    KeptMore(done, id, Legal(w.items));
    KeptMore(done, id, Doomed(w.items));
    FlushedMore(w.items, done, id);
  }

  lemma FlushedMore(items: map<Id, Item>, done: seq<Id>, id: Id)
    requires id in items && id !in done
    ensures id in FlushedItems(items, done) && FlushedItems(items, done)[id] == items[id]
    ensures FlushedItems(items, done + [id]) ==
            if id in Doomed(items) then FlushedItems(items, done) - {id} else FlushedItems(items, done)
  {
    KeptMore(done, id, Doomed(items));
  }

  class Conf {
    var items: map<Id, Item>
    var list: seq<Id>
    var attached: set<(Client, Id)>
    var freed: seq<Id>
    var next: Id

    ghost function W(): World
      reads this
    {
      World(items, list, attached, freed, next)
    }

    constructor ()
      ensures Inv(W()) && list == []
    {
      items, list, attached, freed, next := map[], [], {}, [], 0;
    }

    /** The purge loop of read_conf_files: it unlinks, marks and frees as it walks the list */
    method Purge()
      requires Core(W())
      modifies this
      ensures W() == Purged(old(W()))
    {
      hide Core, PurgedItems, Kept, Idle, Staying;
      ghost var w := W();
      ghost var done: seq<Id>, rest := [], list;
      var i := 0;
      PurgeStarts(w);
      while i < |list|
        invariant w.list == done + rest && list == Kept(done, Staying(w.items)) + rest && i == |Kept(done, Staying(w.items))|
        invariant items == PurgedItems(w.items, done) && freed == w.freed + Kept(done, Idle(w.items))
        invariant attached == w.attached && next == w.next
        decreases |rest|
      {
        var id := list[i];
        PurgeStep(w, done, rest);
        if items[id].clients != 0 {
          if !items[id].client {
            list := list[..i] + list[i + 1..];
          } else {
            i := i + 1;
          }
          items := items[id := items[id].(illegal := true)];
        } else {
          list := list[..i] + list[i + 1..];
          items := items - {id};
          freed := freed + [id];
        }
        done, rest := done + [id], rest[1..];
      }
      assert rest == [] && done == w.list;
    }
  
    /** flush_deleted_I_P */
    method Flush()
      requires Core(W())
      modifies this
      ensures W() == Flushed(old(W()))
    {
      hide Core, Kept, Idle, Legal, Illegal, FlushedItems;
      ghost var w := W();
      ghost var done: seq<Id>, rest := [], list;
      var i := 0;
      FlushStarts(w);
      while i < |list|
        invariant w.list == done + rest && list == Kept(done, Legal(w.items)) + rest && i == |Kept(done, Legal(w.items))|
        invariant items == FlushedItems(w.items, done) && freed == w.freed + Kept(done, Doomed(w.items))
        invariant attached == w.attached && next == w.next
        decreases |rest|
      {
        var id := list[i];
        FlushStep(w, done, rest);
        if !items[id].illegal {
          i := i + 1;
        } else {
          list := list[..i] + list[i + 1..];
          if items[id].clients == 0 {
            items := items - {id};
            freed := freed + [id];
          }
        }
        done, rest := done + [id], rest[1..];
      }
      assert rest == [] && done == w.list;
    }

    /** conf_add_conf for each item that a pass of the parser makes */
    method Parse(adds: seq<bool>)
      modifies this
      ensures W() == AddedAll(old(W()), adds)
    {
      for k := 0 to |adds|
        invariant AddedAll(W(), adds[k..]) == AddedAll(old(W()), adds)
      {
        assert adds[k..][0] == adds[k] && adds[k..][1..] == adds[k + 1..];
        items := items[next := Item(0, adds[k], false)];
        list := [next] + list;
        next := next + 1;
      }
    }

    /** rehash(): read_conf_files and flush_deleted_I_P */
    method DoRehash(opens: Opens, first: seq<bool>, second: seq<bool>)
      requires Inv(W())
      modifies this
      ensures Inv(W()) && W() == Rehashed(old(W()), opens, first, second)
      ensures Follows(old(W()), Rehash(opens, first, second), W())
    {
      hide Core, Purged, AddedAll, Flushed, Replaced;
      RehashedKeeps(W(), opens, first, second);
      if !opens.NeverOpens? {
        PurgedKeeps(W());
        AddedAllKeeps(Purged(W()), first);
        Purge();
        AddedAllKeeps(AddedAll(W(), first), second);
        Parse(first);
        if opens.OpensTwice? {
          Parse(second);
        }
      }
      Flush();
    }

    /** attach_conf */
    method AttachConf(c: Client, id: Id) returns (ok: bool)
      requires Inv(W()) && id in items
      modifies this
      ensures Inv(W()) && W() == Attached(old(W()), c, id) && Follows(old(W()), Attach(c, id), W())
      ensures ok <==> old((c, id) in attached || !items[id].illegal)
      ensures ok <==> (c, id) in attached
    {
      hide Core;
      AttachedKeeps(W(), c, id);
      if (c, id) in attached {
        return true;
      }
      if items[id].illegal {
        return false;
      }
      attached := attached + {(c, id)};
      items := items[id := items[id].(clients := items[id].clients + 1)];
      return true;
    }

    /** detach_conf */
    method DetachConf(c: Client, id: Id)
      requires Inv(W()) && id in items
      modifies this
      ensures Inv(W()) && W() == Detached(old(W()), c, id) && Follows(old(W()), Detach(c, id), W())
      ensures (c, id) !in attached
    {
      hide Core;
      DetachedKeeps(W(), c, id);
      if (c, id) !in attached {
        return;
      }
      var item := items[id].(clients := items[id].clients - 1);
      if item.clients == 0 && item.illegal {
        items := items - {id};
        freed := freed + [id];
      } else {
        items := items[id := item];
      }
      attached := attached - {(c, id)};
    }

    /**
     Any run of attaching, detaching and rehashing: no item that a client holds is freed, and none is
     freed twice. `worlds` are the states before, between and after the steps.
     */
    method Run(steps: seq<Step>) returns (ghost worlds: seq<World>)
      requires Inv(W())
      modifies this
      ensures Inv(W()) && |worlds| == |steps| + 1 && worlds[0] == old(W()) && worlds[|steps|] == W()
      ensures forall k :: 0 <= k < |steps| ==> Inv(worlds[k]) && Follows(worlds[k], steps[k], worlds[k + 1])
    {
      hide Inv, Replaced;
      worlds := [W()];
      for k := 0 to |steps|
        invariant Inv(W()) && |worlds| == k + 1 && worlds[0] == old(W()) && worlds[k] == W()
        invariant forall j :: 0 <= j < k ==> Inv(worlds[j]) && Follows(worlds[j], steps[j], worlds[j + 1])
      {
        match steps[k] {
          case Attach(c, id) => if id in items { var ok := AttachConf(c, id); }
          case Detach(c, id) => if id in items { DetachConf(c, id); }
          case Rehash(opens, first, second) => DoRehash(opens, first, second);
        }
        worlds := worlds + [W()];
      }
    }
  }
}
