/**
 The poll() backend (server/s_bsd_poll.c): descriptors with handlers occupy slots of an array
 that is handed to the kernel. There is one array for IRC connections and one for HTTP.
 */
module PollBackend {
  import opened LinkedLists
  import opened Readiness

  /** An entry of fd_table; `index` is comm_index. */
  datatype Fde = Fde(open: bool, h: Pair, index: int, list: FdList)

  /** What fd_close leaves, and what the table starts with: all bytes zero. */
  const ZEROED := Fde(false, IDLE, 0, NoList)

  /** A struct pollfd. A hangup or an error counts as both kinds of `revents`. */
  datatype Slot = Slot(fd: int, events: Mask, revents: Mask)

  const FREE := Slot(-1, NOTHING, NOTHING)

  /** One pollfd_list_t. */
  datatype PollList = PollList(slots: seq<Slot>, maxindex: int)

  datatype State = State(table: seq<Fde>, ircd: PollList, httpd: PollList)

  /** Every list but FDLIST_HTTPD means the IRC array. */
  predicate IsHttp(list: FdList) {
    list.HttpdList?
  }

  function ListOf(st: State, http: bool): PollList {
    if http then st.httpd else st.ircd
  }

  function WithList(st: State, http: bool, l: PollList): State {
    if http then st.(httpd := l) else st.(ircd := l)
  }

  /** The handlers, without the index. */
  ghost function Handlers(st: State): Plain {
    seq(|st.table|, i requires 0 <= i < |st.table| => if st.table[i].open then Some(st.table[i].h) else None)
  }

  // ------------------------------------------------------------------------------------
  // What holds at every point
  // ------------------------------------------------------------------------------------

  /** The descriptor `fd` agrees with its slot, if it has one. */
  ghost predicate FdOk(f: Fde, l: PollList, fd: int) {
    if !f.open then f == ZEROED || f == ZEROED.(index := -1)
    else if f.index < 0 then f.h == IDLE && f.index == -1
    else f.index < |l.slots| && f.h != IDLE && l.slots[f.index].fd == fd && l.slots[f.index].events == Interest(f.h)
  }

  ghost predicate Owned(table: seq<Fde>, s: Slot, http: bool, i: int) {
    0 <= s.fd < |table| && table[s.fd].open && table[s.fd].index == i && IsHttp(table[s.fd].list) == http
  }

  /** The slot `i` is free or belongs to the descriptor that points to it, and the kernel sees it. */
  ghost predicate SlotOk(table: seq<Fde>, s: Slot, max: int, http: bool, i: int) {
    s == FREE || (Owned(table, s, http, i) && i <= max)
  }

  /** The descriptor points to slot 0 of the IRC array. */
  predicate AtZero(f: Fde) {
    f.open && f.index == 0 && !IsHttp(f.list)
  }

  /** Less than FdOk: a slot may ask for less than the handlers want, there may be none, and slot 0 may be another's. */
  ghost predicate FdLoose(f: Fde, l: PollList, fd: int) {
    if !f.open then f == ZEROED || f == ZEROED.(index := -1)
    else f.index == -1 || (0 <= f.index < |l.slots| && (l.slots[f.index].fd == fd || AtZero(f)))
  }

  /** The descriptor agrees with its slot, or is in `bad`; if there are any in `bad`, so is whoever points to slot 0. */
  ghost predicate FdRight(f: Fde, l: PollList, fd: int, bad: set<int>) {
    if fd in bad then FdLoose(f, l, fd) else FdOk(f, l, fd) && (bad != {} ==> !AtZero(f))
  }

  ghost predicate FdsOk(st: State, bad: set<int>) {
    forall fd :: 0 <= fd < |st.table| ==> FdRight(st.table[fd], ListOf(st, IsHttp(st.table[fd].list)), fd, bad)
  }

  /** maxindex is that of the last used slot; before the first use it is zero. */
  ghost predicate SlotsOk(table: seq<Fde>, l: PollList, http: bool) {
    && |l.slots| == |table| && -1 <= l.maxindex < |table| && (l.maxindex > 0 ==> l.slots[l.maxindex].fd != -1)
    && forall i :: 0 <= i < |l.slots| ==> SlotOk(table, l.slots[i], l.maxindex, http, i)
  }

  /** All slots are right, and all descriptors but those in `bad`. */
  ghost predicate InvBut(st: State, bad: set<int>) {
    |st.table| > 0 && FdsOk(st, bad) && SlotsOk(st.table, st.ircd, false) && SlotsOk(st.table, st.httpd, true)
  }

  /** Descriptors with handlers and used slots are in bijection, and the slots carry the interest. */
  ghost predicate Inv(st: State) {
    InvBut(st, {})
  }

  /** `bad` after a call on `fd`: once it is not empty, the descriptor may get slot 0. */
  ghost function Spread(bad: set<int>, fd: int): set<int> {
    if bad == {} then {} else bad + {fd}
  }

  /** What the kernel is asked about `fd` when the list is polled: the events of its slots below the bound. */
  ghost predicate Asked(l: PollList, fd: nat, m: Mask) {
    exists i :: 0 <= i <= l.maxindex < |l.slots| && l.slots[i].fd == fd && l.slots[i].events == m
  }

  /** The kernel is asked for exactly what there are handlers for, on the array of the descriptor's list. */
  lemma KernelIsAskedExactly(st: State, fd: nat, m: Mask, http: bool)
    requires Inv(st) && fd < |st.table|
    ensures Asked(ListOf(st, http), fd, m)
       <==> && st.table[fd].open && m == Interest(st.table[fd].h) && m != NOTHING
            && IsHttp(st.table[fd].list) == http
  {
    var f, l := st.table[fd], ListOf(st, http);
    EntryOk(st, fd);
    if Asked(l, fd, m) {
      var i :| 0 <= i <= l.maxindex < |l.slots| && l.slots[i].fd == fd && l.slots[i].events == m;
      assert SlotOk(st.table, l.slots[i], l.maxindex, http, i);
    }
    if f.open && f.h != IDLE && IsHttp(f.list) == http {
      assert SlotOk(st.table, l.slots[f.index], l.maxindex, http, f.index);
    }
  }

  // ------------------------------------------------------------------------------------
  // Finding a slot
  // ------------------------------------------------------------------------------------

  /** The first free slot from `k` on, or -1. */
  function FindSlot(slots: seq<Slot>, k: nat := 0): (i: int)
    requires k <= |slots|
    ensures i == -1 || k <= i < |slots|
    ensures i >= 0 ==> slots[i].fd == -1 && forall j :: k <= j < i ==> slots[j].fd != -1
    ensures i == -1 ==> forall j :: k <= j < |slots| ==> slots[j].fd != -1
    decreases |slots| - k
  {
    if k == |slots| then -1
    else if slots[k].fd == -1 then k
    else FindSlot(slots, k + 1)
  }

  /** The loop that lowers maxindex over free slots. */
  function Lowered(slots: seq<Slot>, max: int): (m: int)
    requires -1 <= max < |slots|
    ensures -1 <= m <= max && (m >= 0 ==> slots[m].fd != -1)
    ensures forall k :: m < k <= max ==> slots[k].fd == -1
    decreases max + 1
  {
    if max >= 0 && slots[max].fd == -1 then Lowered(slots, max - 1) else max
  }

  /** n slots whose owners all differ have n owners, all of them in the table. */
  lemma {:induction false} OwnersSize(table: seq<Fde>, l: PollList, http: bool, n: nat) returns (owners: set<int>)
    requires SlotsOk(table, l, http) && n <= |l.slots|
    requires forall i :: 0 <= i < n ==> l.slots[i].fd != -1
    ensures |owners| == n
    ensures forall f :: f in owners ==> 0 <= f < |table| && table[f].open && 0 <= table[f].index < n
    decreases n
  {
    if n == 0 {
      owners := {};
    } else {
      var before := OwnersSize(table, l, http, n - 1);
      assert SlotOk(table, l.slots[n - 1], l.maxindex, http, n - 1);
      owners := before + {l.slots[n - 1].fd};
    }
  }

  lemma {:induction false} Bounded(s: set<int>, n: nat)
    requires forall x :: x in s ==> 0 <= x < n
    ensures |s| <= n
    decreases n
  {
    if n == 0 {
      assert forall x :: x !in s;
    } else {
      Bounded(s - {n - 1}, n - 1);
    }
  }

  /** By counting, a descriptor without a slot finds one: poll_findslot does not fail. */
  lemma SlotFound(table: seq<Fde>, l: PollList, http: bool, fd: nat)
    requires SlotsOk(table, l, http) && fd < |table| && table[fd].index < 0
    ensures 0 <= FindSlot(l.slots) < |table| && l.slots[FindSlot(l.slots)] == FREE
  {
    var n := |table|;
    if FindSlot(l.slots) == -1 {
      var owners := OwnersSize(table, l, http, n);
      assert fd !in owners;
      Bounded(owners + {fd}, n);
    } else {
      assert SlotOk(table, l.slots[FindSlot(l.slots)], l.maxindex, http, FindSlot(l.slots));
    }
  }

  // ------------------------------------------------------------------------------------
  // Registering
  // ------------------------------------------------------------------------------------

  ghost predicate Shape(st: State) {
    && |st.ircd.slots| == |st.httpd.slots| == |st.table|
    && -1 <= st.ircd.maxindex < |st.table| && -1 <= st.httpd.maxindex < |st.table|
  }

  /** The slot that the update of `fd` works on. */
  function SlotFor(f: Fde, l: PollList): (i: int)
    ensures i < |l.slots| || i == f.index
  {
    if f.index < 0 then FindSlot(l.slots) else f.index
  }

  /** The array after slot `i` was given to `fd` for the direction too. */
  function Armed(l: PollList, i: nat, fd: nat, d: Dir): PollList
    requires i < |l.slots|
  {
    var s := l.slots[i];
    PollList(l.slots[i := Slot(fd, WithBit(s.events, d, true), s.revents)], if i > l.maxindex then i else l.maxindex)
  }

  /** The array after slot `i` lost the direction, and was freed if nothing else was asked. */
  function Disarmed(l: PollList, i: nat, d: Dir): PollList
    requires i < |l.slots| && -1 <= l.maxindex < |l.slots|
  {
    var events := WithBit(l.slots[i].events, d, false);
    if events != NOTHING then l.(slots := l.slots[i := l.slots[i].(events := events)])
    else
      var slots := l.slots[i := FREE];
      PollList(slots, if i == l.maxindex then Lowered(slots, l.maxindex) else l.maxindex)
  }

  /** poll_update_pollfds on the array of its list; without a slot the code would go out of bounds. */
  function Updated(f: Fde, l: PollList, fd: nat, list: FdList, d: Dir, on: bool): (Fde, PollList)
    requires -1 <= l.maxindex < |l.slots|
  {
    var i := SlotFor(f, l);
    if i < 0 || i >= |l.slots| then (f, l)
    else if on then (f.(index := i, list := list), Armed(l, i, fd, d))
    else
      var l' := Disarmed(l, i, d);
      (if l'.slots[i].events == NOTHING then f.(index := -1, list := NoList) else f.(index := i), l')
  }

  /** Setting the handler of one direction, and the update that goes with it. */
  ghost function SetDir(st: State, fd: nat, list: FdList, d: Dir, h: Option<Handler>): State
    requires Shape(st) && fd < |st.table|
  {
    var http := IsHttp(list);
    var u := Updated(st.table[fd].(h := With(st.table[fd].h, d, h)), ListOf(st, http), fd, list, d, h.Some?);
    WithList(st.(table := st.table[fd := u.0]), http, u.1)
  }

  lemma InvShape(st: State, bad: set<int> := {})
    requires InvBut(st, bad)
    ensures Shape(st)
  {
  }

  /** The descriptor may be registered on `list`: it has no slot, or one of that array. */
  predicate OneList(f: Fde, list: FdList) {
    f.index < 0 || IsHttp(f.list) == IsHttp(list)
  }

  /** Slot `i` given to `fd`, which pointed to it or to none; slot 0 may be another's. */
  lemma ArmedSlots(table: seq<Fde>, l: PollList, http: bool, i: nat, fd: nat, d: Dir, f: Fde)
    requires SlotsOk(table, l, http) && fd < |table| && i < |table| && f.open && f.index == i && IsHttp(f.list) == http
    requires l.slots[i] == FREE || l.slots[i].fd == fd || (i == 0 && !http)
    requires table[fd].index == i || table[fd].index < 0
    ensures SlotsOk(table[fd := f], Armed(l, i, fd, d), http)
  {
    var l' := Armed(l, i, fd, d);
    forall j | 0 <= j < |l.slots| ensures SlotOk(table[fd := f], l'.slots[j], l'.maxindex, http, j) {
      assert SlotOk(table, l.slots[j], l.maxindex, http, j);
    }
  }

  /** Slot `i`, that `fd` points to, or a free one, loses a direction. */
  lemma DisarmedSlots(table: seq<Fde>, l: PollList, http: bool, i: nat, fd: nat, d: Dir, f: Fde)
    requires SlotsOk(table, l, http) && fd < |table| && i < |table| && (f.open || !table[fd].open)
    requires l.slots[i] == FREE || l.slots[i].fd == fd || (i == 0 && !http)
    requires table[fd].index == i || table[fd].index < 0
    requires f.open && Disarmed(l, i, d).slots[i].events != NOTHING ==> f.index == i && IsHttp(f.list) == http
    ensures SlotsOk(table[fd := f], Disarmed(l, i, d), http)
  {
    var l' := Disarmed(l, i, d);
    assert SlotOk(table, l.slots[i], l.maxindex, http, i);
    forall j | 0 <= j < |l.slots| ensures SlotOk(table[fd := f], l'.slots[j], l'.maxindex, http, j) {
      assert SlotOk(table, l.slots[j], l.maxindex, http, j);
    }
  }

  /** The array of the list after the update: every slot is right for the new table. */
  lemma UpdatedSlots(table: seq<Fde>, l: PollList, fd: nat, list: FdList, d: Dir, h: Option<Handler>)
    requires SlotsOk(table, l, IsHttp(list)) && fd < |table| && table[fd].open
    requires FdLoose(table[fd], l, fd) && OneList(table[fd], list)
    ensures var f := table[fd].(h := With(table[fd].h, d, h));
            var u := Updated(f, l, fd, list, d, h.Some?);
            && SlotsOk(table[fd := u.0], u.1, IsHttp(list)) && FdLoose(u.0, u.1, fd) && |u.1.slots| == |l.slots|
            && u.0.open && u.0.h == f.h && (u.0.index >= 0 ==> IsHttp(u.0.list) == IsHttp(list))
            && (h.None? && u.0.index >= 0 ==> u.0.index == table[fd].index)
            && (FdOk(table[fd], l, fd) ==> FdOk(u.0, u.1, fd))
            && (forall j :: 0 <= j < |l.slots| && l.slots[j].fd !in [-1, fd as int] && (j != 0 || !AtZero(table[fd])) ==>
                  u.1.slots[j] == l.slots[j])
  {
    if table[fd].index < 0 {
      SlotFound(table, l, IsHttp(list), fd);
    }
    var f := table[fd].(h := With(table[fd].h, d, h));
    var u := Updated(f, l, fd, list, d, h.Some?);
    var i := SlotFor(f, l);
    if h.Some? {
      ArmedSlots(table, l, IsHttp(list), i, fd, d, u.0);
    } else {
      DisarmedSlots(table, l, IsHttp(list), i, fd, d, u.0);
    }
  }

  /** The other array does not depend on a descriptor that sits on this one or on none. */
  lemma OtherSlots(table: seq<Fde>, l: PollList, http: bool, fd: nat, f: Fde)
    requires SlotsOk(table, l, http) && fd < |table| && (table[fd].index < 0 || IsHttp(table[fd].list) != http || !table[fd].open)
    ensures SlotsOk(table[fd := f], l, http)
  {
    forall j | 0 <= j < |l.slots| ensures SlotOk(table[fd := f], l.slots[j], l.maxindex, http, j) {
      assert SlotOk(table, l.slots[j], l.maxindex, http, j);
    }
  }

  /**
   A slot holds no report, or the report it held before for the same descriptor; and it is as
   before if its descriptor is not one of `fds`.
   */
  ghost predicate SlotCarried(s: Slot, s': Slot, fds: set<int>) {
    && (s'.revents == NOTHING || (s'.revents == s.revents && s'.fd == s.fd))
    && (s.fd == -1 || s.fd in fds || s' == s)
  }

  ghost predicate ListCarried(l: PollList, l': PollList, fds: set<int>, from: nat) {
    |l.slots| == |l'.slots| && forall i :: from <= i < |l.slots| ==> SlotCarried(l.slots[i], l'.slots[i], fds)
  }

  /** No report is new, and only the descriptors in `fds` may have lost theirs, in either array but for slot 0 of the first. */
  ghost predicate Carried(st: State, st': State, fds: set<int>) {
    ListCarried(st.ircd, st'.ircd, fds, 1) && ListCarried(st.httpd, st'.httpd, fds, 0)
  }

  /** One descriptor's entry and its array were updated: the rest is right as it was. */
  lemma RightElsewhere(st: State, st': State, fd: nat, http: bool, bad: set<int>)
    requires FdsOk(st, bad) && fd < |st.table| && |st'.table| == |st.table|
    requires forall k :: 0 <= k < |st.table| && k != fd ==> st'.table[k] == st.table[k]
    requires ListOf(st', !http) == ListOf(st, !http) && |ListOf(st', http).slots| == |ListOf(st, http).slots|
    requires SlotsOk(st.table, ListOf(st, http), http)
    requires forall j :: 0 <= j < |st.table| && ListOf(st, http).slots[j].fd !in [-1, fd as int] && (j != 0 || http || bad == {}) ==>
               ListOf(st', http).slots[j] == ListOf(st, http).slots[j]
    ensures forall k :: 0 <= k < |st.table| && k != fd ==>
              FdRight(st'.table[k], ListOf(st', IsHttp(st'.table[k].list)), k, bad)
  {
    forall k | 0 <= k < |st.table| && k != fd ensures FdRight(st'.table[k], ListOf(st', IsHttp(st'.table[k].list)), k, bad) {
      var f, l := st.table[k], ListOf(st, http);
      assert FdRight(f, ListOf(st, IsHttp(f.list)), k, bad);
      if f.open && f.index >= 0 && IsHttp(f.list) == http && (!AtZero(f) || bad == {}) {
        assert ListOf(st', http).slots[f.index] == l.slots[f.index];
      }
    }
  }

  lemma SetDirKeeps(st: State, fd: nat, list: FdList, d: Dir, h: Option<Handler>, bad: set<int> := {})
    requires InvBut(st, bad) && fd < |st.table| && st.table[fd].open && OneList(st.table[fd], list)
    ensures Shape(st)
    ensures var st' := SetDir(st, fd, list, d, h);
            && InvBut(st', Spread(bad, fd)) && (h.None? ==> InvBut(st', bad))
            && Carried(st, st', {fd}) && OneList(st'.table[fd], list)
            && st'.table[fd].open && st'.table[fd].h == With(st.table[fd].h, d, h)
            && (h.None? && AtZero(st'.table[fd]) ==> AtZero(st.table[fd]))
            && |st'.table| == |st.table| && (forall k :: 0 <= k < |st.table| && k != fd ==> st'.table[k] == st.table[k])
  {
    hide Updated, SlotOk, SlotCarried, FdLoose, FdOk;
    InvShape(st, bad);
    var http, f := IsHttp(list), st.table[fd];
    var l := ListOf(st, http);
    var st' := SetDir(st, fd, list, d, h);
    var l' := ListOf(st', http);
    RightHere(st, fd, list, bad);
    UpdatedSlots(st.table, l, fd, list, d, h);
    UpdatedCarried(st.table, l, fd, list, d, h);
    CarriedSelf(st, {fd});
    OtherSlots(st.table, ListOf(st, !http), !http, fd, st'.table[fd]);
    RightElsewhere(st, st', fd, http, bad);
    forall k | 0 <= k < |st.table|
      ensures FdRight(st'.table[k], ListOf(st', IsHttp(st'.table[k].list)), k, Spread(bad, fd))
      ensures h.None? ==> FdRight(st'.table[k], ListOf(st', IsHttp(st'.table[k].list)), k, bad)
    {
      OkIsLoose(st'.table[k], ListOf(st', IsHttp(st'.table[k].list)), k);
      if k == fd {
        IndexLess(st'.table[fd], l', ListOf(st', !http), fd);
      }
    }
  }

  /** Without a slot it does not matter which array is meant. */
  lemma IndexLess(f: Fde, l: PollList, l': PollList, fd: int)
    ensures f.index < 0 ==> (FdOk(f, l, fd) <==> FdOk(f, l', fd)) && (FdLoose(f, l, fd) <==> FdLoose(f, l', fd))
  {
  }

  lemma OkIsLoose(f: Fde, l: PollList, fd: int)
    ensures FdOk(f, l, fd) ==> FdLoose(f, l, fd)
  {
  }

  lemma RightHere(st: State, fd: nat, list: FdList, bad: set<int>)
    requires FdsOk(st, bad) && fd < |st.table| && OneList(st.table[fd], list)
    ensures var f, l := st.table[fd], ListOf(st, IsHttp(list));
            && FdLoose(f, l, fd) && (fd !in bad ==> FdOk(f, l, fd) && (bad != {} ==> !AtZero(f)))
            && (bad == {} && AtZero(f) ==> 0 < |l.slots| && l.slots[0].fd == fd)
  {
    assert FdRight(st.table[fd], ListOf(st, IsHttp(st.table[fd].list)), fd, bad);
  }
  lemma UpdatedCarried(table: seq<Fde>, l: PollList, fd: nat, list: FdList, d: Dir, h: Option<Handler>)
    requires SlotsOk(table, l, IsHttp(list)) && fd < |table| && table[fd].open
    requires FdLoose(table[fd], l, fd) && OneList(table[fd], list)
    ensures ListCarried(l, Updated(table[fd].(h := With(table[fd].h, d, h)), l, fd, list, d, h.Some?).1, {fd}, if IsHttp(list) then 0 else 1)
  {
    hide SlotOk;
    if table[fd].index < 0 {
      SlotFound(table, l, IsHttp(list), fd);
    }
  }

  // ------------------------------------------------------------------------------------
  // The calls
  // ------------------------------------------------------------------------------------

  ghost function WithFde(st: State, fd: nat, f: Fde): State
    requires fd < |st.table|
  {
    st.(table := st.table[fd := f])
  }

  /** comm_setselect */
  ghost function Selected(st: State, fd: nat, list: FdList, read: bool, write: bool, h: Option<Handler>): State
    requires Shape(st) && fd < |st.table|
  {
    var st0 := WithFde(st, fd, st.table[fd].(list := list));
    var st1 := if read then SetDir(st0, fd, list, Read, h) else st0;
    if write then SetDir(st1, fd, list, Write, h) else st1
  }

  /** fd_close */
  ghost function Closed(st: State, fd: nat): State
    requires Shape(st) && fd < |st.table|
  {
    WithFde(Selected(st, fd, NoList, true, true, None), fd, ZEROED)
  }

  /** fd_open */
  ghost function Opened(st: State, fd: nat): State
    requires Shape(st) && fd < |st.table|
  {
    var st0 := if st.table[fd].open then Closed(st, fd) else st;
    WithFde(st0, fd, st0.table[fd].(open := true, index := -1, list := NoList))
  }

  /**
   What a caller has to keep to: only open descriptors are registered, and while a descriptor
   has handlers it stays on one array; fd_close counts as the IRC array.
   */
  predicate Allowed(table: seq<Fde>, c: Call) {
    && c.fd < |table|
    && match c {
      case SetSelect(fd, list, _, _, _) => table[fd].open && OneList(table[fd], list)
      case Close(fd) => table[fd].open && OneList(table[fd], NoList)
      case Open(fd) => table[fd].open ==> OneList(table[fd], NoList)
    }
  }

  ghost function Called(st: State, c: Call): State
    requires Shape(st) && c.fd < |st.table|
  {
    match c {
      case SetSelect(fd, list, read, write, h) => Selected(st, fd, list, read, write, h)
      case Close(fd) => Closed(st, fd)
      case Open(fd) => Opened(st, fd)
    }
  }

  /** A call that a handler makes, if it is allowed. */
  ghost function Step(st: State, c: Call): State {
    if Shape(st) && Allowed(st.table, c) then Called(st, c) else st
  }

  /** One branch of the dispatch loop: the handler is taken out and, if there was one, runs. */
  ghost function Taken(st: State, fd: nat, d: Dir, calls: seq<Call>): State
    requires Shape(st) && fd < |st.table|
  {
    var st' := SetDir(st, fd, st.table[fd].list, d, None);
    if Of(st.table[fd].h, d).Some? then Played(Step, st', calls) else st'
  }

  /** A change of the entry that does not concern the slots. */
  ghost predicate Replaces(f: Fde, f': Fde) {
    if f.open && f.index >= 0 then f' == f.(list := f'.list) && IsHttp(f.list) == IsHttp(f'.list)
    else f' == ZEROED || (f'.open && f'.index == -1 && (f'.h == IDLE || (f.open && f' == f.(list := f'.list))))
  }

  lemma WithFdeKeeps(st: State, fd: nat, f: Fde, bad: set<int> := {})
    requires InvBut(st, bad) && fd < |st.table| && Replaces(st.table[fd], f)
    ensures InvBut(WithFde(st, fd, f), bad) && Carried(st, WithFde(st, fd, f), {fd})
  {
    var st' := WithFde(st, fd, f);
    forall k | 0 <= k < |st.table| ensures FdRight(st'.table[k], ListOf(st', IsHttp(st'.table[k].list)), k, bad) {
      assert FdRight(st.table[k], ListOf(st, IsHttp(st.table[k].list)), k, bad);
    }
    forall http: bool | true ensures SlotsOk(st'.table, ListOf(st, http), http) {
      var l := ListOf(st, http);
      assert SlotsOk(st.table, l, http);
      forall j | 0 <= j < |l.slots| ensures SlotOk(st'.table, l.slots[j], l.maxindex, http, j) {
        assert SlotOk(st.table, l.slots[j], l.maxindex, http, j);
      }
    }
    assert ListOf(st', false) == st.ircd && ListOf(st', true) == st.httpd;
  }

  lemma CarriedOn(a: State, b: State, c: State, fds: set<int>, more: set<int>, all: set<int>)
    requires Carried(a, b, fds) && Carried(b, c, more) && fds <= all && more <= all
    ensures Carried(a, c, all)
  {
    forall i | 1 <= i < |a.ircd.slots| ensures SlotCarried(a.ircd.slots[i], c.ircd.slots[i], all) {
      assert SlotCarried(a.ircd.slots[i], b.ircd.slots[i], fds) && SlotCarried(b.ircd.slots[i], c.ircd.slots[i], more);
    }
    forall i | 0 <= i < |a.httpd.slots| ensures SlotCarried(a.httpd.slots[i], c.httpd.slots[i], all) {
      assert SlotCarried(a.httpd.slots[i], b.httpd.slots[i], fds) && SlotCarried(b.httpd.slots[i], c.httpd.slots[i], more);
    }
  }

  /** Nothing but the entry of `fd` has changed. */
  ghost predicate OnlyAt(st: State, st': State, fd: nat) {
    |st'.table| == |st.table| && forall k :: 0 <= k < |st.table| && k != fd ==> st'.table[k] == st.table[k]
  }

  lemma SelectedKeeps(st: State, fd: nat, list: FdList, read: bool, write: bool, h: Option<Handler>, bad: set<int> := {})
    requires InvBut(st, bad) && fd < |st.table| && st.table[fd].open && OneList(st.table[fd], list)
    ensures Shape(st)
    ensures var st' := Selected(st, fd, list, read, write, h);
            && InvBut(st', Spread(bad, fd)) && Carried(st, st', {fd}) && OnlyAt(st, st', fd)
            && OneList(st'.table[fd], list) && st'.table[fd].open
            && Handlers(st') == Registered(Handlers(st), SetSelect(fd, list, read, write, h))
  {
    hide InvBut, SetDir, Carried;
    InvShape(st, bad);
    EntryRight(st, fd, bad);
    var st0 := WithFde(st, fd, st.table[fd].(list := list));
    WithFdeKeeps(st, fd, st0.table[fd], bad);
    MoreBad(st0, bad, fd);
    var st1 := st0;
    if read {
      SetDirKeeps(st0, fd, list, Read, h, Spread(bad, fd));
      st1 := SetDir(st0, fd, list, Read, h);
      CarriedOn(st, st0, st1, {fd}, {fd}, {fd});
    }
    if write {
      SetDirKeeps(st1, fd, list, Write, h, Spread(bad, fd));
      CarriedOn(st, st1, SetDir(st1, fd, list, Write, h), {fd}, {fd}, {fd});
    }
  }

  lemma MoreBad(st: State, bad: set<int>, fd: int)
    requires InvBut(st, bad)
    ensures InvBut(st, Spread(bad, fd)) && Spread(Spread(bad, fd), fd) == Spread(bad, fd)
  {
    forall k | 0 <= k < |st.table| ensures FdRight(st.table[k], ListOf(st, IsHttp(st.table[k].list)), k, Spread(bad, fd)) {
      assert FdRight(st.table[k], ListOf(st, IsHttp(st.table[k].list)), k, bad);
    }
  }

  lemma EntryRight(st: State, fd: nat, bad: set<int>)
    requires InvBut(st, bad) && fd < |st.table|
    ensures FdRight(st.table[fd], ListOf(st, IsHttp(st.table[fd].list)), fd, bad)
    ensures FdLoose(st.table[fd], ListOf(st, IsHttp(st.table[fd].list)), fd)
  {
  }

  lemma EntryOk(st: State, fd: nat)
    requires Inv(st) && fd < |st.table|
    ensures FdOk(st.table[fd], ListOf(st, IsHttp(st.table[fd].list)), fd)
  {
    EntryRight(st, fd, {});
  }

  /** A slot that loses both directions is freed. */
  lemma ShutFrees(st: State, fd: nat, bad: set<int>)
    requires InvBut(st, bad) && fd < |st.table| && st.table[fd].open && OneList(st.table[fd], NoList)
    ensures Shape(st) && Selected(st, fd, NoList, true, true, None).table[fd].index == -1
  {
    hide InvBut, SetDir;
    InvShape(st, bad);
    EntryRight(st, fd, bad);
    var st0 := WithFde(st, fd, st.table[fd].(list := NoList));
    WithFdeKeeps(st, fd, st0.table[fd], bad);
    InvShape(st0, bad);
    SetDirKeeps(st0, fd, NoList, Read, None, bad);
    var st1 := SetDir(st0, fd, NoList, Read, None);
    InvShape(st1, bad);
    OffFrees(st0, fd, Read, bad);
    OffFrees(st1, fd, Write, bad);
    OffKeeps(st1, fd, Write, Read, bad);
  }

  /** A direction that is off is not asked for by the slot that is left. */
  lemma OffFrees(st: State, fd: nat, d: Dir, bad: set<int>)
    requires InvBut(st, bad) && fd < |st.table| && st.table[fd].open && OneList(st.table[fd], NoList)
    ensures Shape(st)
    ensures var st' := SetDir(st, fd, NoList, d, None);
            && |st'.table| == |st.table| && |st'.ircd.slots| == |st.ircd.slots| && -1 <= st'.table[fd].index < |st.ircd.slots|
            && (st'.table[fd].index >= 0 ==>
                  st'.ircd.slots[st'.table[fd].index].events != NOTHING && !Bit(st'.ircd.slots[st'.table[fd].index].events, d))
  {
    InvShape(st, bad);
    RightHere(st, fd, NoList, bad);
    if st.table[fd].index < 0 {
      SlotFound(st.table, st.ircd, false, fd);
    }
  }

  /** Turning one direction off does not turn the other on. */
  lemma OffKeeps(st: State, fd: nat, d: Dir, e: Dir, bad: set<int>)
    requires InvBut(st, bad) && fd < |st.table| && st.table[fd].open && OneList(st.table[fd], NoList)
    requires -1 <= st.table[fd].index < |st.ircd.slots| && (st.table[fd].index >= 0 ==> !Bit(st.ircd.slots[st.table[fd].index].events, e))
    ensures Shape(st)
    ensures var st' := SetDir(st, fd, NoList, d, None);
            && |st'.table| == |st.table| && |st'.ircd.slots| == |st.ircd.slots| && -1 <= st'.table[fd].index < |st.ircd.slots|
            && (st'.table[fd].index >= 0 ==> !Bit(st'.ircd.slots[st'.table[fd].index].events, e))
  {
    InvShape(st, bad);
    RightHere(st, fd, NoList, bad);
    if st.table[fd].index < 0 {
      SlotFound(st.table, st.ircd, false, fd);
    }
  }

  lemma ClosedKeeps(st: State, fd: nat, bad: set<int> := {})
    requires InvBut(st, bad) && fd < |st.table| && st.table[fd].open && OneList(st.table[fd], NoList)
    ensures Shape(st) && InvBut(Closed(st, fd), Spread(bad, fd)) && Carried(st, Closed(st, fd), {fd})
    ensures Handlers(Closed(st, fd)) == Registered(Handlers(st), Close(fd))
    ensures OnlyAt(st, Closed(st, fd), fd) && Closed(st, fd).table[fd] == ZEROED
  {
    hide InvBut, Selected, Carried;
    InvShape(st, bad);
    SelectedKeeps(st, fd, NoList, true, true, None, bad);
    ShutFrees(st, fd, bad);
    var st' := Selected(st, fd, NoList, true, true, None);
    assert |Handlers(st')| == |st.table| && Handlers(st')[fd] == Some(IDLE);
    assert Handlers(Closed(st, fd)) == Handlers(st')[fd := None];
    WithFdeKeeps(st', fd, ZEROED, Spread(bad, fd));
    CarriedOn(st, st', Closed(st, fd), {fd}, {fd}, {fd});
  }

  lemma OpenedKeeps(st: State, fd: nat, bad: set<int> := {})
    requires InvBut(st, bad) && fd < |st.table| && (st.table[fd].open ==> OneList(st.table[fd], NoList))
    ensures Shape(st) && InvBut(Opened(st, fd), Spread(bad, fd)) && Carried(st, Opened(st, fd), {fd})
    ensures Handlers(Opened(st, fd)) == Registered(Handlers(st), Open(fd)) && OnlyAt(st, Opened(st, fd), fd)
  {
    hide InvBut, Selected, Carried;
    InvShape(st, bad);
    var st0 := if st.table[fd].open then Closed(st, fd) else st;
    if st.table[fd].open {
      ClosedKeeps(st, fd, bad);
    } else {
      EntryRight(st, fd, bad);
      CarriedSelf(st, {fd});
      MoreBad(st, bad, fd);
    }
    assert !st0.table[fd].open && st0.table[fd].h == IDLE;
    WithFdeKeeps(st0, fd, Opened(st, fd).table[fd], Spread(bad, fd));
    CarriedOn(st, st0, Opened(st, fd), {fd}, {fd}, {fd});
    assert Handlers(Opened(st, fd)) == Handlers(st0)[fd := Some(IDLE)];
  }

  lemma CarriedSelf(st: State, fds: set<int>)
    ensures Carried(st, st, fds)
  {
  }

  /** Every call a caller may make keeps the agreement and does to the handlers what it says. */
  lemma CalledKeeps(st: State, c: Call, bad: set<int> := {})
    requires InvBut(st, bad) && Allowed(st.table, c)
    ensures Shape(st) && InvBut(Called(st, c), Spread(bad, c.fd)) && Carried(st, Called(st, c), {c.fd})
    ensures Handlers(Called(st, c)) == Registered(Handlers(st), c) && OnlyAt(st, Called(st, c), c.fd)
  {
    hide InvBut, Carried, Handlers, Registered, Selected, Closed, Opened;
    match c {
      case SetSelect(fd, list, read, write, h) => SelectedKeeps(st, fd, list, read, write, h, bad);
      case Close(fd) => ClosedKeeps(st, fd, bad);
      case Open(fd) => OpenedKeeps(st, fd, bad);
    }
  }

  /** The array that a call does not name stays as it was. */
  lemma OtherUntouched(st: State, fd: nat, list: FdList, d: Dir, h: Option<Handler>)
    requires Shape(st) && fd < |st.table|
    ensures var st' := SetDir(st, fd, list, d, h);
            && Shape(st') && |st'.table| == |st.table| && ListOf(st', !IsHttp(list)) == ListOf(st, !IsHttp(list))
            && (Clean(ListOf(st, IsHttp(list))) && OneList(st.table[fd], list) ==> Clean(ListOf(st', IsHttp(list))) && OneList(st'.table[fd], list))
  {
  }

  ghost predicate Clean(l: PollList) {
    forall i :: 0 <= i < |l.slots| && l.slots[i].fd == -1 ==> l.slots[i].events == NOTHING
  }

  /** A descriptor that is registered on the other array leaves its slot there without an owner. */
  lemma SelectedStrands(st: State, fd: nat, list: FdList, read: bool, write: bool, h: Option<Handler>)
    requires Inv(st) && fd < |st.table| && st.table[fd].open && !OneList(st.table[fd], list)
    ensures Shape(st)
    ensures var st' := Selected(st, fd, list, read, write, h);
            && Shape(st') && |st'.table| == |st.table| && ListOf(st', !IsHttp(list)) == ListOf(st, !IsHttp(list))
            && OneList(st'.table[fd], list)
  {
    hide SetDir;
    InvShape(st);
    InvClean(st);
    var st0 := WithFde(st, fd, st.table[fd].(list := list));
    var st1 := if read then SetDir(st0, fd, list, Read, h) else st0;
    OtherUntouched(st0, fd, list, Read, h);
    OtherUntouched(st1, fd, list, Write, h);
  }

  lemma InvClean(st: State)
    requires Inv(st)
    ensures Clean(st.ircd) && Clean(st.httpd)
  {
    forall i | 0 <= i < |st.table| ensures SlotOk(st.table, st.ircd.slots[i], st.ircd.maxindex, false, i) {}
    forall i | 0 <= i < |st.table| ensures SlotOk(st.table, st.httpd.slots[i], st.httpd.maxindex, true, i) {}
  }

  lemma StrandedBreaks(st: State, st': State, fd: nat, list: FdList)
    requires Inv(st) && fd < |st.table| && st.table[fd].open && !OneList(st.table[fd], list)
    requires |st'.table| == |st.table| && ListOf(st', !IsHttp(list)) == ListOf(st, !IsHttp(list))
    requires !st'.table[fd].open || OneList(st'.table[fd], list)
    ensures !Inv(st')
  {
    EntryOk(st, fd);
    var l, i := ListOf(st, !IsHttp(list)), st.table[fd].index;
    assert !SlotOk(st'.table, l.slots[i], l.maxindex, !IsHttp(list), i);
  }

  /**
   Calls on open descriptors keep the agreement exactly when they keep a descriptor with handlers
   on one array. fd_close passes no list and so counts as a call on the IRC array: closing a
   descriptor that has handlers on the HTTP array leaves its slot behind without an owner.
   */
  lemma CalledKeepsIff(st: State, c: Call)
    requires Inv(st) && c.fd < |st.table| && (st.table[c.fd].open || c.Open?)
    ensures Shape(st) && (Inv(Called(st, c)) <==> Allowed(st.table, c))
  {
    hide InvBut, Selected;
    InvShape(st);
    if Allowed(st.table, c) {
      CalledKeeps(st, c);
    } else if c.SetSelect? {
      SelectedStrands(st, c.fd, c.list, c.read, c.write, c.handler);
      StrandedBreaks(st, Called(st, c), c.fd, c.list);
    } else {
      SelectedStrands(st, c.fd, NoList, true, true, None);
      StrandedBreaks(st, Called(st, c), c.fd, NoList);
    }
  }

  /** What init_netio and fdlist_init leave. */
  function Started(connections: nat): State {
    State(seq(connections, i => ZEROED), PollList(seq(connections, i => FREE), 0), PollList(seq(connections, i => FREE), 0))
  }

  lemma StartedInv(connections: nat)
    requires connections > 0
    ensures Inv(Started(connections)) && Handlers(Started(connections)) == seq(connections, i => None)
  {
  }

  /** It can: a descriptor is opened, registered to read on the HTTP array, and closed. */
  lemma HttpCloseStrands(h: Handler)
    ensures Shape(Started(1))
    ensures var st1 := Called(Started(1), Open(0));
            && Shape(st1) && |st1.table| == 1
            && var st2 := Called(st1, SetSelect(0, HttpdList, true, false, Some(h)));
               Inv(st2) && |st2.table| == 1 && Shape(st2) && !Inv(Called(st2, Close(0)))
  {
    hide InvBut, Called, Handlers;
    StartedInv(1);
    InvShape(Started(1));
    OpenedKeepsFree(Started(1), 0);
    var st1 := Called(Started(1), Open(0));
    HttpReaderSits(st1, 0, h);
    var st2 := Called(st1, SetSelect(0, HttpdList, true, false, Some(h)));
    InvShape(st2);
    CalledKeepsIff(st2, Close(0));
  }

  lemma OpenedKeepsFree(st: State, fd: nat)
    requires Inv(st) && fd < |st.table| && !st.table[fd].open
    ensures Shape(st) && Inv(Called(st, Open(fd))) && Shape(Called(st, Open(fd)))
    ensures var st' := Called(st, Open(fd)); |st'.table| == |st.table| && st'.table[fd].open && st'.table[fd].index == -1
  {
    hide InvBut;
    CalledKeeps(st, Open(fd));
    InvShape(Called(st, Open(fd)));
  }

  lemma HttpReaderSits(st: State, fd: nat, h: Handler)
    requires Inv(st) && fd < |st.table| && st.table[fd].open && st.table[fd].index == -1
    ensures Shape(st)
    ensures var st' := Called(st, SetSelect(fd, HttpdList, true, false, Some(h)));
            && Inv(st') && |st'.table| == |st.table| && st'.table[fd].open && !Allowed(st'.table, Close(fd))
  {
    hide InvBut, Selected;
    CalledKeeps(st, SetSelect(fd, HttpdList, true, false, Some(h)));
    SelectedKeeps(st, fd, HttpdList, true, false, Some(h));
    var st' := Selected(st, fd, HttpdList, true, false, Some(h));
    assert Handlers(st')[fd].Some? && Handlers(st')[fd].value.read == Some(h);
    EntryOk(st', fd);
  }

  /**
   A read handler that closes its descriptor leaves comm_index 0 behind; if the same report also
   takes the write branch, that branch disarms slot 0 of the IRC array. The agreement survives
   exactly when slot 0 was not waiting to write.
   */
  predicate Clobbers(f: Fde, slot0: Slot) {
    !f.open && f.index == 0 && slot0.events.wr
  }

  lemma WriteAfterCloseIff(st: State, fd: nat)
    requires Inv(st) && fd < |st.table| && !st.table[fd].open
    ensures Shape(st)
    ensures Inv(SetDir(st, fd, st.table[fd].list, Write, None)) <==> !Clobbers(st.table[fd], st.ircd.slots[0])
  {
    InvShape(st);
    var f := st.table[fd];
    EntryOk(st, fd);
    var st' := SetDir(st, fd, f.list, Write, None);
    if f.index < 0 {
      SlotFound(st.table, st.ircd, false, fd);
    }
    var i := SlotFor(f, st.ircd);
    assert SlotOk(st.table, st.ircd.slots[i], st.ircd.maxindex, false, i);
    if Clobbers(f, st.ircd.slots[0]) {
      var victim := st.ircd.slots[0].fd;
      EntryOk(st, victim);
      assert !FdOk(st'.table[victim], ListOf(st', IsHttp(st'.table[victim].list)), victim);
    } else {
      ClosedWriteKeeps(st, fd);
    }
  }

  /** The agreement can fail so: slot 0 waits to write, and the write branch is taken for a closed descriptor. */
  lemma SlotZeroLosesItsInterest() returns (st: State)
    ensures Inv(st) && |st.table| == 2 && st.table[0].h.write.Some? && Clobbers(st.table[1], st.ircd.slots[0])
    ensures SetDir(st, 1, st.table[1].list, Write, None).ircd.slots[0] == FREE
    ensures !Inv(SetDir(st, 1, st.table[1].list, Write, None))
  {
    var writer := Fde(true, Pair(None, Some(7)), 0, IrcdList);
    st := State([writer, ZEROED], PollList([Slot(0, Mask(false, true), NOTHING), FREE], 0), PollList([FREE, FREE], 0));
    assert FdOk(st.table[0], st.ircd, 0) && FdOk(st.table[1], st.ircd, 1);
    assert SlotOk(st.table, st.ircd.slots[0], 0, false, 0);
    WriteAfterCloseIff(st, 1);
  }

  /** The damage is that one bit: all other descriptors still agree with their slots, and no handler changes. */
  lemma ClobberedOne(st: State, fd: nat)
    requires Inv(st) && fd < |st.table| && !st.table[fd].open && Clobbers(st.table[fd], st.ircd.slots[0])
    ensures Shape(st) && 0 <= st.ircd.slots[0].fd < |st.table|
    ensures var st', victim := SetDir(st, fd, st.table[fd].list, Write, None), st.ircd.slots[0].fd;
            && st'.httpd == st.httpd && Handlers(st') == Handlers(st)
            && (forall i :: 0 < i < |st.table| ==> st'.ircd.slots[i] == st.ircd.slots[i])
            && st'.ircd.slots[0].events == Mask(st.table[victim].h.read.Some?, false)
            && (forall k :: 0 <= k < |st.table| && k != victim ==>
                  FdOk(st'.table[k], ListOf(st', IsHttp(st'.table[k].list)), k))
  {
    InvShape(st);
    EntryOk(st, fd);
    assert SlotOk(st.table, st.ircd.slots[0], st.ircd.maxindex, false, 0);
    EntryOk(st, st.ircd.slots[0].fd);
    var st' := SetDir(st, fd, st.table[fd].list, Write, None);
    forall k | 0 <= k < |st.table| && k != st.ircd.slots[0].fd ensures FdOk(st'.table[k], ListOf(st', IsHttp(st'.table[k].list)), k) {
      EntryOk(st, k);
    }
  }

  /** `bad` after a branch that is taken for `fd`: who owns slot 0 joins when it loses its interest there. */
  ghost function Struck(st: State, fd: nat, bad: set<int>): set<int>
    requires fd < |st.table| && 0 < |st.ircd.slots|
  {
    if bad == {} && Clobbers(st.table[fd], st.ircd.slots[0]) then {st.ircd.slots[0].fd} else bad
  }

  /** The write branch for a closed descriptor leaves all slots right, and all descriptors but who owned slot 0. */
  lemma ClosedWriteKeeps(st: State, fd: nat, bad: set<int> := {})
    requires InvBut(st, bad) && fd < |st.table| && !st.table[fd].open
    ensures Shape(st)
    ensures var st' := SetDir(st, fd, st.table[fd].list, Write, None);
            && InvBut(st', Struck(st, fd, bad)) && Carried(st, st', {fd}) && OnlyAt(st, st', fd)
            && !st'.table[fd].open && Handlers(st') == Handlers(st)
  {
    hide SlotOk, FdRight;
    InvShape(st, bad);
    ClosedWriteSlots(st, fd, bad);
    var st' := SetDir(st, fd, st.table[fd].list, Write, None);
    forall k | 0 <= k < |st.table| && k != fd
      ensures FdRight(st'.table[k], ListOf(st', IsHttp(st'.table[k].list)), k, Struck(st, fd, bad)) {
      ClosedWriteRight(st, fd, k, bad);
    }
    OtherSlots(st.table, st.httpd, true, fd, st'.table[fd]);
  }

  /** The entry and the slots after that. */
  lemma ClosedWriteSlots(st: State, fd: nat, bad: set<int>)
    requires InvBut(st, bad) && fd < |st.table| && !st.table[fd].open
    ensures Shape(st)
    ensures var st' := SetDir(st, fd, st.table[fd].list, Write, None);
            && OnlyAt(st, st', fd) && (st'.table[fd] == ZEROED || st'.table[fd] == ZEROED.(index := -1)) && st'.httpd == st.httpd
            && SlotsOk(st'.table, st'.ircd, false) && ListCarried(st.ircd, st'.ircd, {fd}, 1)
            && FdRight(st'.table[fd], ListOf(st', IsHttp(st'.table[fd].list)), fd, Struck(st, fd, bad))
            && (forall j :: 0 < j < |st.table| ==> st'.ircd.slots[j] == st.ircd.slots[j])
            && (st'.ircd.slots[0] == st.ircd.slots[0] || (st.table[fd].index == 0 && (st.ircd.slots[0].events.wr || st.ircd.slots[0].events == NOTHING)))
  {
    InvShape(st, bad);
    var f := st.table[fd];
    EntryRight(st, fd, bad);
    var st' := SetDir(st, fd, f.list, Write, None);
    if f.index < 0 {
      SlotFound(st.table, st.ircd, false, fd);
    }
    forall j | 0 <= j < |st.table| ensures SlotOk(st'.table, st'.ircd.slots[j], st'.ircd.maxindex, false, j) {
      assert SlotOk(st.table, st.ircd.slots[j], st.ircd.maxindex, false, j);
    }
  }

  lemma ClosedWriteRight(st: State, fd: nat, k: nat, bad: set<int>)
    requires InvBut(st, bad) && fd < |st.table| && !st.table[fd].open && k < |st.table| && k != fd
    ensures Shape(st)
    ensures var st' := SetDir(st, fd, st.table[fd].list, Write, None);
            OnlyAt(st, st', fd) && FdRight(st'.table[k], ListOf(st', IsHttp(st'.table[k].list)), k, Struck(st, fd, bad))
  {
    hide SetDir, SlotsOk;
    InvShape(st, bad);
    ClosedWriteSlots(st, fd, bad);
    EntryRight(st, k, bad);
  }

  /** Taking a handler out, as dispatch does. */
  lemma FireKeeps(st: State, fd: nat, d: Dir, bad: set<int> := {})
    requires InvBut(st, bad) && fd < |st.table| && (st.table[fd].open || d.Write?)
    ensures Shape(st)
    ensures var st' := SetDir(st, fd, st.table[fd].list, d, None);
            && InvBut(st', Struck(st, fd, bad)) && Carried(st, st', {fd}) && Handlers(st') == Fired(Handlers(st), fd, d)
            && Contained(st, st', bad, Struck(st, fd, bad), [Fire(fd, d)])
  {
    hide InvBut, SetDir, Carried, CalledOn;
    InvShape(st, bad);
    StruckOwner(st, fd, bad);
    if st.table[fd].open {
      SetDirKeeps(st, fd, st.table[fd].list, d, None, bad);
    } else {
      ClosedWriteKeeps(st, fd, bad);
    }
  }

  lemma StruckOwner(st: State, fd: nat, bad: set<int>)
    requires InvBut(st, bad) && fd < |st.table|
    ensures 0 < |st.ircd.slots| && forall k :: k in Struck(st, fd, bad) ==> k in bad || (0 <= k < |st.table| && AtZero(st.table[k]))
  {
    assert SlotOk(st.table, st.ircd.slots[0], st.ircd.maxindex, false, 0);
  }

  /**
   Over these events a descriptor comes to point to slot 0 only by a call on it, and joins `bad`
   only so, or if it pointed there before.
   */
  ghost predicate Contained(st: State, st': State, bad: set<int>, bad': set<int>, events: seq<Event>) {
    && |st'.table| == |st.table|
    && (forall k :: 0 <= k < |st.table| && AtZero(st'.table[k]) ==> AtZero(st.table[k]) || CalledOn(events, k))
    && (forall k :: k in bad' ==> k in bad || (0 <= k < |st.table| && AtZero(st.table[k])) || CalledOn(events, k))
  }

  lemma ContainedOn(a: State, b: State, c: State, bad: set<int>, bad': set<int>, bad'': set<int>, before: seq<Event>, events: seq<Event>)
    requires Contained(a, b, bad, bad', before) && Contained(b, c, bad', bad'', events)
    ensures Contained(a, c, bad, bad'', before + events)
  {
    hide AtZero, CalledOn;
    forall k: int | true ensures CalledOn(before + events, k) <==> CalledOn(before, k) || CalledOn(events, k) {
      CalledOnMore(before, events, k);
    }
  }

  lemma ContainedSelf(st: State, bad: set<int>)
    ensures Contained(st, st, bad, bad, [])
  {
  }

  lemma ContainedCall(st: State, st': State, c: Call, bad: set<int>)
    requires OnlyAt(st, st', c.fd)
    ensures Contained(st, st', bad, Spread(bad, c.fd), [Did(c)])
  {
    assert Did(c) in [Did(c)];
    assert CalledOn([Did(c)], c.fd);
  }

  /** What one call of a handler, made or refused, adds to the calls before. */
  lemma Goes(start: State, st: State, st': State, bad: set<int>, bad0: set<int>, did: seq<Event>, c: Call)
    requires Carried(start, st, Touched(did)) && Carried(st, st', {c.fd}) && OnlyAt(st, st', c.fd)
    requires Contained(start, st, bad, bad0, did)
    ensures Carried(start, st', Touched(did + [Did(c)])) && Contained(start, st', bad, Spread(bad0, c.fd), did + [Did(c)])
  {
    hide Carried, OnlyAt, Contained, Touched;
    TouchedOne(Did(c));
    TouchedAppend(did, [Did(c)]);
    CarriedOn(start, st, st', Touched(did), {c.fd}, Touched(did + [Did(c)]));
    ContainedCall(st, st', c, bad0);
    ContainedOn(start, st, st', bad, bad0, Spread(bad0, c.fd), did, [Did(c)]);
  }

  lemma Stays(start: State, st: State, bad: set<int>, bad0: set<int>, did: seq<Event>, c: Call)
    requires Carried(start, st, Touched(did)) && Contained(start, st, bad, bad0, did)
    ensures Carried(start, st, Touched(did + [Refused(c)])) && Contained(start, st, bad, bad0, did + [Refused(c)])
  {
    hide Carried, Contained, Touched;
    CarriedSelf(st, Touched([Refused(c)]));
    TouchedAppend(did, [Refused(c)]);
    CarriedOn(start, st, st, Touched(did), Touched([Refused(c)]), Touched(did + [Refused(c)]));
    RefusedContains(st, bad0, c);
    ContainedOn(start, st, st, bad, bad0, bad0, did, [Refused(c)]);
  }

  lemma RefusedContains(st: State, bad: set<int>, c: Call)
    ensures Contained(st, st, bad, bad, [Refused(c)])
  {
  }

  /** There is a slot to work on, in whichever array. */
  lemma SlotReady(st: State, fd: nat, http: bool, bad: set<int> := {})
    requires InvBut(st, bad) && fd < |st.table|
    ensures Shape(st) && 0 <= SlotFor(st.table[fd], ListOf(st, http)) < |st.table|
  {
    EntryRight(st, fd, bad);
    if st.table[fd].index < 0 {
      SlotFound(st.table, ListOf(st, http), http, fd);
    }
  }

  // ------------------------------------------------------------------------------------
  // Dispatch
  // ------------------------------------------------------------------------------------

  /** The array after poll() filled in the reports. */
  ghost function Polled(l: PollList, ready: seq<Mask>): PollList
    requires |ready| == l.maxindex + 1 <= |l.slots|
  {
    l.(slots := seq(|l.slots|, i requires 0 <= i < |l.slots| =>
                 if i < |ready| && l.slots[i].fd != -1 then l.slots[i].(revents := ready[i]) else l.slots[i]))
  }

  lemma PolledKeeps(st: State, http: bool, ready: seq<Mask>, bad: set<int> := {})
    requires InvBut(st, bad) && |ready| == ListOf(st, http).maxindex + 1
    ensures InvBut(WithList(st, http, Polled(ListOf(st, http), ready)), bad)
    ensures Handlers(WithList(st, http, Polled(ListOf(st, http), ready))) == Handlers(st)
  {
    var l := ListOf(st, http);
    var l' := Polled(l, ready);
    var st' := WithList(st, http, l');
    forall fd | 0 <= fd < |st.table| ensures FdRight(st'.table[fd], ListOf(st', IsHttp(st'.table[fd].list)), fd, bad) {
      EntryRight(st, fd, bad);
    }
    forall j | 0 <= j < |l.slots| ensures SlotOk(st.table, l'.slots[j], l'.maxindex, http, j) {
      assert SlotOk(st.table, l.slots[j], l.maxindex, http, j);
    }
  }

  /** Every handler taken so far was of a descriptor reported in that direction, in a slot before `ci`. */
  ghost predicate Justified(events: seq<Event>, table: seq<Fde>, ready: seq<Mask>, ci: int) {
    forall e :: e in events && e.Fire? ==>
      e.fd < |table| && 0 <= table[e.fd].index < ci && table[e.fd].index < |ready| && Bit(ready[table[e.fd].index], e.dir)
  }

  /** Every report of a slot before `ci` was served, unless a handler made a call on the descriptor. */
  ghost predicate Served(events: seq<Event>, slots: seq<Slot>, ready: seq<Mask>, ci: int) {
    forall j, d :: 0 <= j < ci && j < |ready| && j < |slots| && slots[j].fd >= 0 && Bit(ready[j], d) ==>
      Fire(slots[j].fd, d) in events || CalledOn(events, slots[j].fd)
  }

  /** The branches that a report of slot `ci` takes. */
  ghost predicate Branches(events: seq<Event>, fd: nat, report: Mask) {
    && FiredOnce(events) && (forall e :: e in events && e.Fire? ==> e.fd == fd && Bit(report, e.dir))
    && (report.rd ==> Fire(fd, Read) in events) && (report.wr ==> Fire(fd, Write) in events)
  }

  lemma BranchesOf(rs: seq<Event>, ws: seq<Event>, fd: nat, report: Mask)
    requires if report.rd then Branch(rs, fd, Read) else rs == []
    requires if report.wr then Branch(ws, fd, Write) else ws == []
    ensures Branches(rs + ws, fd, report)
  {
    if report.rd {
      BranchOnce([], rs, fd, Read);
      assert [] + rs == rs;
    }
    if report.wr {
      BranchOnce(rs, ws, fd, Write);
    } else {
      assert rs + ws == rs;
    }
  }

  lemma FiredOnceMore(before: seq<Event>, events: seq<Event>, fd: nat, report: Mask)
    requires FiredOnce(before) && Branches(events, fd, report)
    requires forall e :: e in before && e.Fire? ==> e.fd != fd
    ensures FiredOnce(before + events)
  {
    var all := before + events;
    forall i, j | 0 <= i < j < |all| && all[i].Fire? && all[j].Fire? ensures all[i] != all[j] {
      if j >= |before| {
        assert all[j] == events[j - |before|];
        assert i < |before| ==> all[i] in before;
        assert all[j] in events;
      }
    }
  }

  /** The round stays right when slot `ci` has been served. */
  lemma ServedMore(before: seq<Event>, events: seq<Event>, table: seq<Fde>, slots: seq<Slot>, ready: seq<Mask>, fd: nat, ci: nat)
    requires Justified(before, table, ready, ci) && Served(before, slots, ready, ci) && FiredOnce(before)
    requires fd < |table| && table[fd].index == ci < |ready| && ci < |slots| && slots[ci].fd == fd
    requires Branches(events, fd, ready[ci])
    ensures FiredOnce(before + events) && Justified(before + events, table, ready, ci + 1)
    ensures Served(before + events, slots, ready, ci + 1)
  {
    FiredOnceMore(before, events, fd, ready[ci]);
    assert forall e :: e in before + events <==> e in before || e in events;
    forall j, d | 0 <= j < ci + 1 && j < |ready| && j < |slots| && slots[j].fd >= 0 && Bit(ready[j], d)
      ensures Fire(slots[j].fd, d) in before + events || CalledOn(before + events, slots[j].fd) {
      if j == ci {
        assert Fire(fd, d) in events;
      } else if CalledOn(before, slots[j].fd) {
        var e :| e in before && e.Did? && e.call.fd == slots[j].fd;
        assert e in before + events;
      }
    }
  }

  /** A slot without a report at `ci`: if the kernel had reported on it, a handler made a call since. */
  lemma ServedSkipped(st: State, st': State, http: bool, ready: seq<Mask>, events: seq<Event>, ci: nat, bad: set<int>, bad': set<int>)
    requires InvBut(st, bad) && |ready| == ListOf(st, http).maxindex + 1 && InvBut(st', bad')
    requires ci == 0 ==> st' == WithList(st, http, Polled(ListOf(st, http), ready))
    requires var polled := WithList(st, http, Polled(ListOf(st, http), ready));
             Carried(polled, st', Touched(events)) && Served(events, ListOf(polled, http).slots, ready, ci)
    requires Justified(events, st.table, ready, ci)
    requires ci < |st.table| && (ListOf(st', http).slots[ci].revents == NOTHING || ci > ListOf(st', http).maxindex)
    ensures Served(events, Polled(ListOf(st, http), ready).slots, ready, ci + 1)
    ensures Justified(events, st.table, ready, ci + 1)
  {
    var l := ListOf(st, http);
    var slots := Polled(l, ready).slots;
    forall j, d | 0 <= j < ci + 1 && j < |ready| && j < |slots| && slots[j].fd >= 0 && Bit(ready[j], d)
      ensures Fire(slots[j].fd, d) in events || CalledOn(events, slots[j].fd) {
      if j == ci {
        assert SlotOk(st.table, l.slots[ci], l.maxindex, http, ci);
        assert SlotOk(st'.table, ListOf(st', http).slots[ci], ListOf(st', http).maxindex, http, ci);
        assert ci > 0 || http ==> SlotCarried(slots[ci], ListOf(st', http).slots[ci], Touched(events));
        var e :| e in events && FdOf(e) == slots[ci].fd;
        assert e.Did?;
      }
    }
  }

  /** A slot with a report still holds the descriptor that the kernel saw there. */
  lemma ReportIsOwn(st: State, st': State, http: bool, ready: seq<Mask>, fds: set<int>, ci: nat, bad: set<int>, bad': set<int>)
    requires InvBut(st, bad) && |ready| == ListOf(st, http).maxindex + 1 && ci < |st.table| && InvBut(st', bad')
    requires ci == 0 ==> st' == WithList(st, http, Polled(ListOf(st, http), ready))
    requires Carried(WithList(st, http, Polled(ListOf(st, http), ready)), st', fds)
    requires ListOf(st', http).slots[ci].revents != NOTHING && |st'.table| == |st.table|
    ensures var s := ListOf(st', http).slots[ci];
            && ci < |ready| && s.revents == ready[ci] && 0 <= s.fd < |st.table| && st.table[s.fd].index == ci
            && st'.table[s.fd].open && Polled(ListOf(st, http), ready).slots[ci].fd == s.fd
  {
    var l := Polled(ListOf(st, http), ready);
    var l' := ListOf(st', http);
    assert ci > 0 || http ==> SlotCarried(l.slots[ci], l'.slots[ci], fds);
    assert SlotOk(st.table, ListOf(st, http).slots[ci], ListOf(st, http).maxindex, http, ci);
    assert SlotOk(st'.table, l'.slots[ci], l'.maxindex, http, ci);
  }

  lemma CloseStays(before: seq<Event>, events: seq<Event>)
    ensures forall fd: nat :: Did(Close(fd)) in before || Did(Close(fd)) in events ==> Did(Close(fd)) in before + events
  {
  }

  lemma ContainedBad(st: State, st': State, bad: set<int>, bad': set<int>, events: seq<Event>)
    requires Contained(st, st', bad, bad', events)
    ensures forall k :: k in bad' ==> k in bad || (0 <= k < |st.table| && AtZero(st.table[k])) || CalledOn(events, k)
  {
  }

  lemma RoundStarts(st: State, polled: State, slots: seq<Slot>, ready: seq<Mask>)
    ensures Carried(polled, polled, Touched([])) && Replay(Handlers(st), []) == Handlers(st)
    ensures FiredOnce([]) && Justified([], st.table, ready, 0) && Served([], slots, ready, 0)
  {
    CarriedSelf(polled, Touched([]));
  }

  lemma FreeIsUnreported(st: State, http: bool, ci: nat, bad: set<int>)
    requires InvBut(st, bad) && ci < |st.table|
    ensures ci < |ListOf(st, http).slots| && (ListOf(st, http).slots[ci].fd == -1 ==> ListOf(st, http).slots[ci].revents == NOTHING)
  {
    assert SlotOk(st.table, ListOf(st, http).slots[ci], ListOf(st, http).maxindex, http, ci);
  }

  /** A descriptor that was open at its report and is closed at the write branch was closed by a handler. */
  lemma ClosedBy(st: State, st': State, events: seq<Event>, fd: nat)
    requires Handlers(st') == Replay(Handlers(st), events) && |st'.table| == |st.table|
    requires fd < |st.table| && st.table[fd].open && !st'.table[fd].open
    ensures Did(Close(fd)) in events
  {
    ReplayClosed(Handlers(st), events, fd);
  }

  lemma {:induction false} RoundEnds(st: State, st': State, http: bool, ready: seq<Mask>, events: seq<Event>, ci: nat, bad: set<int>, bad': set<int>)
    requires InvBut(st, bad) && |ready| == ListOf(st, http).maxindex + 1 && InvBut(st', bad') && |st'.table| == |st.table|
    requires ci == 0 ==> st' == WithList(st, http, Polled(ListOf(st, http), ready))
    requires Carried(WithList(st, http, Polled(ListOf(st, http), ready)), st', Touched(events))
    requires Served(events, Polled(ListOf(st, http), ready).slots, ready, ci)
    requires Justified(events, st.table, ready, ci) && ci > ListOf(st', http).maxindex
    ensures Served(events, ListOf(st, http).slots, ready, |ready|) && Justified(events, st.table, ready, |ready|)
    decreases |ready| - ci
  {
    if ci < |ready| {
      ServedSkipped(st, st', http, ready, events, ci, bad, bad');
      RoundEnds(st, st', http, ready, events, ci + 1, bad, bad');
    } else {
      var slots := Polled(ListOf(st, http), ready).slots;
      assert forall j :: 0 <= j < |slots| ==> slots[j].fd == ListOf(st, http).slots[j].fd;
    }
  }

  /** The list of each descriptor. */
  ghost function Lists(st: State): seq<FdList> {
    seq(|st.table|, i requires 0 <= i < |st.table| => st.table[i].list)
  }

  /** A descriptor that has a slot was last registered on the list that its entry names. */
  ghost predicate ListsOk(table: seq<Fde>, l: seq<FdList>) {
    |l| == |table| && forall fd :: 0 <= fd < |table| && table[fd].open && table[fd].index >= 0 ==> table[fd].list == l[fd]
  }

  lemma ListsStart(st: State, polled: State)
    requires polled.table == st.table
    ensures ListsOk(polled.table, Lists(st))
  {
  }

  lemma SetDirLists(st: State, fd: nat, list: FdList, d: Dir, h: Option<Handler>, bad: set<int>, l: seq<FdList>)
    requires InvBut(st, bad) && fd < |st.table| && st.table[fd].open && OneList(st.table[fd], list)
    requires ListsOk(st.table, l) && (l[fd] == list || (h.None? && list == st.table[fd].list))
    ensures Shape(st) && ListsOk(SetDir(st, fd, list, d, h).table, l)
  {
    EntryRight(st, fd, bad);
    OkIsLoose(st.table[fd], ListOf(st, IsHttp(st.table[fd].list)), fd);
    IndexLess(st.table[fd], ListOf(st, IsHttp(st.table[fd].list)), ListOf(st, IsHttp(list)), fd);
    UpdatedSlots(st.table, ListOf(st, IsHttp(list)), fd, list, d, h);
  }

  lemma FireLists(st: State, fd: nat, d: Dir, bad: set<int>, l: seq<FdList>)
    requires InvBut(st, bad) && fd < |st.table| && ListsOk(st.table, l)
    ensures Shape(st) && ListsOk(SetDir(st, fd, st.table[fd].list, d, None).table, l)
  {
    InvShape(st, bad);
    if st.table[fd].open {
      SetDirLists(st, fd, st.table[fd].list, d, None, bad, l);
    }
  }

  lemma SelectedLists(st: State, fd: nat, list: FdList, read: bool, write: bool, h: Option<Handler>, bad: set<int>, l: seq<FdList>)
    requires InvBut(st, bad) && fd < |st.table| && st.table[fd].open && OneList(st.table[fd], list)
    requires |l| == |st.table| && l[fd] == list && ListsOk(WithFde(st, fd, st.table[fd].(list := list)).table, l)
    ensures Shape(st) && ListsOk(Selected(st, fd, list, read, write, h).table, l)
  {
    hide InvBut, SetDir, ListsOk;
    InvShape(st, bad);
    EntryRight(st, fd, bad);
    var st0 := WithFde(st, fd, st.table[fd].(list := list));
    WithFdeKeeps(st, fd, st0.table[fd], bad);
    MoreBad(st0, bad, fd);
    SetDirKeeps(st0, fd, list, Read, h, bad);
    SetDirLists(st0, fd, list, Read, h, bad, l);
    SetDirLists(st0, fd, list, Write, h, bad, l);
    SetDirLists(SetDir(st0, fd, list, Read, h), fd, list, Write, h, Spread(bad, fd), l);
  }

  lemma CalledLists(st: State, c: Call, bad: set<int>, l: seq<FdList>)
    requires InvBut(st, bad) && Allowed(st.table, c) && ListsOk(st.table, l)
    ensures Shape(st) && ListsOk(Called(st, c).table, PlacedBy(l, Did(c)))
  {
    hide InvBut, Selected;
    InvShape(st, bad);
    var l' := PlacedBy(l, Did(c));
    if c.SetSelect? {
      SelectedLists(st, c.fd, c.list, c.read, c.write, c.handler, bad, l');
    } else if st.table[c.fd].open {
      SelectedLists(st, c.fd, NoList, true, true, None, bad, l');
    }
  }

  lemma WaitingIs(st: State, fd: nat, d: Dir, bad: set<int>)
    requires InvBut(st, bad) && fd < |st.table|
    ensures Waiting(Handlers(st), fd, d) <==> Of(st.table[fd].h, d).Some?
  {
    EntryRight(st, fd, bad);
  }

  /** A descriptor in `bad` may have a slot without handlers. */
  lemma DueIsAllowed(st: State, c: Call, l: seq<FdList>, bad: set<int>)
    requires InvBut(st, bad) && ListsOk(st.table, l) && Due(Handlers(st), l, c, bad)
    ensures Allowed(st.table, c)
  {
    EntryRight(st, c.fd, bad);
  }

  // ------------------------------------------------------------------------------------
  // The code
  // ------------------------------------------------------------------------------------

  class Poll {
    const table: array<Fde>
    const ircd: array<Slot>
    const httpd: array<Slot>
    var ircdMax: int
    var httpdMax: int

    ghost predicate Separate() {
      ircd != httpd && ircd.Length == httpd.Length == table.Length > 0
    }

    ghost function View(): State
      reads this, table, ircd, httpd
    {
      State(table[..], PollList(ircd[..], ircdMax), PollList(httpd[..], httpdMax))
    }

    /** init_netio and fdlist_init */
    constructor (connections: nat)
      requires connections > 0
      ensures Separate() && Inv(View()) && View() == Started(connections)
    {
      table := new Fde[connections](i => ZEROED);
      ircd := new Slot[connections](i => FREE);
      httpd := new Slot[connections](i => FREE);
      ircdMax, httpdMax := 0, 0;
    }

    /** poll_findslot */
    method SlotIn(slots: array<Slot>) returns (i: int)
      ensures i == FindSlot(slots[..])
      ensures i >= 0 ==> i < slots.Length && slots[i].fd == -1 && forall j :: 0 <= j < i ==> slots[j].fd != -1
    {
      i := 0;
      while i < slots.Length
        invariant 0 <= i <= slots.Length && FindSlot(slots[..]) == FindSlot(slots[..], i)
      {
        if slots[i].fd == -1 {
          return;
        }
        i := i + 1;
      }
      i := -1;
    }

    /** The loop that lowers maxindex */
    method LowerMax(slots: array<Slot>, max: int) returns (m: int)
      requires -1 <= max < slots.Length
      ensures m == Lowered(slots[..], max) && -1 <= m <= max && (m >= 0 ==> slots[m].fd != -1)
    {
      m := max;
      while m >= 0 && slots[m].fd == -1
        invariant -1 <= m <= max && Lowered(slots[..], max) == Lowered(slots[..], m)
      {
        m := m - 1;
      }
    }

    /** poll_update_pollfds on the array it chose */
    method UpdateSlots(slots: array<Slot>, max: int, f: Fde, fd: nat, list: FdList, d: Dir, on: bool)
      returns (f': Fde, max': int)
      requires -1 <= max < slots.Length && 0 <= SlotFor(f, PollList(slots[..], max)) < slots.Length
      modifies slots
      ensures (f', PollList(slots[..], max')) == Updated(f, PollList(old(slots[..]), max), fd, list, d, on)
    {
      f', max' := f, max;
      if f'.index < 0 {
        var spare := SlotIn(slots);
        f' := f'.(index := spare);
      }
      var i := f'.index;
      if on {
        f' := f'.(list := list);
        slots[i] := slots[i].(events := WithBit(slots[i].events, d, true), fd := fd);
        if i > max' {
          max' := i;
        }
      } else {
        slots[i] := slots[i].(events := WithBit(slots[i].events, d, false));
        if slots[i].events == NOTHING {
          slots[i] := slots[i].(fd := -1, revents := NOTHING);
          f' := f'.(index := -1, list := NoList);
          assert slots[..] == old(slots[..])[i := FREE];
          if i == max' {
            max' := LowerMax(slots, max');
          }
        }
      }
    }

    /** A handler is set and poll_update_pollfds called */
    method SetHandler(fd: nat, list: FdList, d: Dir, h: Option<Handler>)
      requires Separate() && Shape(View()) && fd < table.Length
      requires 0 <= SlotFor(table[fd], ListOf(View(), IsHttp(list))) < table.Length
      modifies this, table, ircd, httpd
      ensures View() == SetDir(old(View()), fd, list, d, h)
    {
      var f := table[fd].(h := With(table[fd].h, d, h));
      if list.HttpdList? {
        f, httpdMax := UpdateSlots(httpd, httpdMax, f, fd, list, d, h.Some?);
      } else {
        f, ircdMax := UpdateSlots(ircd, ircdMax, f, fd, list, d, h.Some?);
      }
      table[fd] := f;
    }
  
    /** comm_setselect */
    method Register(fd: nat, list: FdList, read: bool, write: bool, h: Option<Handler>, ghost bad: set<int> := {})
      requires Separate() && InvBut(View(), bad) && fd < table.Length && table[fd].open && OneList(table[fd], list)
      modifies this, table, ircd, httpd
      ensures Shape(old(View())) && View() == Selected(old(View()), fd, list, read, write, h)
    {
      hide InvBut, SetDir, Carried, SlotFor;
      ghost var st := View();
      InvShape(st, bad);
      EntryRight(st, fd, bad);
      table[fd] := table[fd].(list := list);
      ghost var st0 := View();
      assert st0 == WithFde(st, fd, st.table[fd].(list := list));
      WithFdeKeeps(st, fd, st0.table[fd], bad);
      MoreBad(st0, bad, fd);
      if read {
        SlotReady(View(), fd, IsHttp(list), bad);
        SetDirKeeps(View(), fd, list, Read, h, bad);
        SetHandler(fd, list, Read, h);
      }
      if write {
        SlotReady(View(), fd, IsHttp(list), Spread(bad, fd));
        SetHandler(fd, list, Write, h);
      }
    }

    /** fd_close */
    method FdClose(fd: nat, ghost bad: set<int> := {})
      requires Separate() && InvBut(View(), bad) && fd < table.Length && table[fd].open && OneList(table[fd], NoList)
      modifies this, table, ircd, httpd
      ensures Shape(old(View())) && View() == Closed(old(View()), fd)
    {
      hide InvBut, Selected;
      Register(fd, NoList, true, true, None, bad);
      table[fd] := ZEROED;
    }

    /** fd_open */
    method FdOpen(fd: nat, ghost bad: set<int> := {})
      requires Separate() && InvBut(View(), bad) && fd < table.Length && (table[fd].open ==> OneList(table[fd], NoList))
      modifies this, table, ircd, httpd
      ensures Shape(old(View())) && View() == Opened(old(View()), fd)
    {
      hide InvBut, Closed;
      InvShape(View(), bad);
      if table[fd].open {
        FdClose(fd, bad);
      }
      table[fd] := table[fd].(open := true, index := -1, list := NoList);
    }

    method Do(c: Call, ghost bad: set<int> := {})
      requires Separate() && InvBut(View(), bad) && Allowed(View().table, c)
      modifies this, table, ircd, httpd
      ensures Shape(old(View())) && View() == Called(old(View()), c)
      ensures InvBut(View(), Spread(bad, c.fd)) && Carried(old(View()), View(), {c.fd}) && OnlyAt(old(View()), View(), c.fd)
      ensures Handlers(View()) == Registered(old(Handlers(View())), c)
    {
      hide InvBut, Selected, Closed, Opened, Carried, Handlers, Registered, OnlyAt;
      CalledKeeps(View(), c, bad);
      match c {
        case SetSelect(fd, list, read, write, h) => Register(fd, list, read, write, h, bad);
        case Close(fd) => FdClose(fd, bad);
        case Open(fd) => FdOpen(fd, bad);
      }
    }

    /** A handler runs: it makes its calls, as far as they are allowed at that point. */
    method RunHandler(calls: seq<Call>, ghost bad: set<int>, ghost l: seq<FdList>) returns (did: seq<Event>, ghost bad': set<int>)
      requires Separate() && InvBut(View(), bad) && ListsOk(table[..], l)
      modifies this, table, ircd, httpd
      ensures InvBut(View(), bad') && Carried(old(View()), View(), Touched(did)) && (bad' == {} <==> bad == {}) && bad <= bad'
      ensures Handlers(View()) == Replay(old(Handlers(View())), did) && forall e :: e in did ==> !e.Fire?
      ensures ListsOk(table[..], Placed(l, did)) && Attempts(old(Handlers(View())), l, did, calls, bad')
      ensures View() == Played(Step, old(View()), calls) && Contained(old(View()), View(), bad, bad', did)
    {
      hide InvBut, Carried, Handlers, Registered, Called, Contained, OnlyAt, Replay, Placed, PlacedBy, ListsOk, Due, Attempts, Touched;
      ghost var start, p := View(), Handlers(View());
      did, bad' := [], bad;
      CarriedSelf(View(), Touched(did));
      ContainedSelf(View(), bad);
      NothingPlays(p, l, k => [], bad);
      for i := 0 to |calls|
        invariant InvBut(View(), bad') && Carried(start, View(), Touched(did)) && (bad' == {} <==> bad == {}) && bad <= bad'
        invariant Handlers(View()) == Replay(p, did) && forall e :: e in did ==> !e.Fire?
        invariant Played(Step, View(), calls[i..]) == Played(Step, start, calls)
        invariant Contained(start, View(), bad, bad', did)
        invariant ListsOk(table[..], Placed(l, did)) && Attempts(p, l, did, calls[..i], bad')
      {
        assert calls[i..][0] == calls[i] && calls[i..][1..] == calls[i + 1..];
        assert calls[..i + 1] == calls[..i] + [calls[i]];
        ghost var st, bad0 := View(), bad';
        InvShape(st, bad0);
        if calls[i].fd < table.Length && Allowed(table[..], calls[i]) {
          var event := Did(calls[i]);
          CalledLists(st, calls[i], bad0, Placed(l, did));
          Do(calls[i], bad0);
          bad' := Spread(bad0, calls[i].fd);
          Goes(start, st, View(), bad, bad0, did, calls[i]);
          AttemptsBusier(p, l, did, calls[..i], bad0, bad');
          Logged(p, l, did, calls[..i], event, calls[i], bad');
          did := did + [event];
        } else {
          var event := Refused(calls[i]);
          if Due(Handlers(st), Placed(l, did), calls[i], bad0) {
            DueIsAllowed(st, calls[i], Placed(l, did), bad0);
          }
          Stays(start, st, bad, bad0, did, calls[i]);
          Logged(p, l, did, calls[..i], event, calls[i], bad0);
          did := did + [event];
        }
      }
      assert calls[..|calls|] == calls;
    }

    /** One branch of the dispatch loop */
    method Take(fd: nat, d: Dir, calls: seq<Call>, ghost bad: set<int>, ghost l: seq<FdList>)
      returns (events: seq<Event>, ghost bad': set<int>)
      requires Separate() && InvBut(View(), bad) && fd < table.Length && (table[fd].open || d.Write?) && ListsOk(table[..], l)
      modifies this, table, ircd, httpd
      ensures InvBut(View(), bad') && (bad' == {} <==> bad == {} && !Clobbers(old(table[fd]), old(ircd[0])))
      ensures Carried(old(View()), View(), Touched(events)) && Branch(events, fd, d) && Contained(old(View()), View(), bad, bad', events)
      ensures Handlers(View()) == Replay(old(Handlers(View())), events)
      ensures bad <= bad' && ListsOk(table[..], Placed(l, events))
      ensures BranchPlays(old(Handlers(View())), l, events, fd, d, calls, bad')
      ensures Shape(old(View())) && View() == Taken(old(View()), fd, d, calls)
    {
      hide InvBut, Carried, Handlers, SetDir, SlotFor, Replay, Fired, Touched, Played, Contained, Clobbers, ListsOk, Placed, Attempts,
        BranchPlays, Waiting;
      ghost var p := Handlers(View());
      WaitingIs(View(), fd, d, bad);
      FireKeeps(View(), fd, d, bad);
      FireLists(View(), fd, d, bad, l);
      SlotReady(View(), fd, IsHttp(table[fd].list), bad);
      bad' := Struck(View(), fd, bad);
      var h := Of(table[fd].h, d);
      SetHandler(fd, table[fd].list, d, None);
      events := [Fire(fd, d)];
      TouchedOne(Fire(fd, d));
      ghost var st, bad1 := View(), bad';
      var did: seq<Event> := [];
      NothingPlays(Fired(p, fd, d), l, k => [], bad1);
      if h.Some? {
        did, bad' := RunHandler(calls, bad1, l);
        TouchedAppend(events, did);
        CarriedOn(old(View()), st, View(), {fd}, Touched(did), Touched(events + did));
        ContainedOn(old(View()), st, View(), bad, bad1, bad', events, did);
      }
      assert did == [] ==> events + did == events;
      AttemptsBusier(Fired(p, fd, d), l, did, CallsOf(p, fd, d, calls), bad', bad' + {fd});
      BranchIs(p, l, did, fd, d, calls, bad');
      events := events + did;
    }

    /** The kernel fills in the reports */
    method FillReports(slots: array<Slot>, max: int, ready: seq<Mask>)
      requires |ready| == max + 1 <= slots.Length
      modifies slots
      ensures PollList(slots[..], max) == Polled(PollList(old(slots[..]), max), ready)
    {
      for i := 0 to |ready|
        invariant forall k :: 0 <= k < slots.Length ==>
          slots[k] == if k < i && old(slots[k]).fd != -1 then old(slots[k]).(revents := ready[k]) else old(slots[k])
      {
        if slots[i].fd != -1 {
          slots[i] := slots[i].(revents := ready[i]);
        }
      }
    }
  
    /** The body of the dispatch loop for a slot with a report; `hit` says that it disarms slot 0 for another */
    method DispatchSlot(fd: nat, report: Mask, script: Script, ghost bad: set<int>, ghost l: seq<FdList>)
      returns (events: seq<Event>, ghost hit: bool, ghost bad': set<int>)
      requires Separate() && InvBut(View(), bad) && fd < table.Length && table[fd].open && ListsOk(table[..], l)
      modifies this, table, ircd, httpd
      ensures InvBut(View(), bad') && (bad' == {} <==> bad == {} && !hit) && Contained(old(View()), View(), bad, bad', events)
      ensures Carried(old(View()), View(), Touched(events)) && Branches(events, fd, report)
      ensures Handlers(View()) == Replay(old(Handlers(View())), events)
      ensures hit ==> report == Mask(true, true) && Did(Close(fd)) in events
      ensures bad <= bad' && ListsOk(table[..], Placed(l, events)) && Plays(old(Handlers(View())), l, events, script, bad')
    {
      hide InvBut, Carried, Replay, Touched, Branch, Branches, Handlers, Contained, ListsOk, Placed, Plays, BranchPlays;
      ghost var p := Handlers(View());
      events, hit, bad' := [], false, bad;
      CarriedSelf(View(), Touched(events));
      ContainedSelf(View(), bad);
      NothingPlays(p, l, script, bad);
      if report.rd {
        events, bad' := Take(fd, Read, script(0), bad, l);
        NothingPlays(p, l, script, bad');
        Continues(p, l, [], events, fd, Read, script, bad');
        assert [] + events == events;
      }
      var more: seq<Event> := [];
      if report.wr {
        hit := Clobbers(table[fd], ircd[0]);
        if hit {
          ClosedBy(old(View()), View(), events, fd);
        }
        ghost var st, bad1 := View(), bad';
        more, bad' := Take(fd, Write, script(|events|), bad1, Placed(l, events));
        PlaysBusier(p, l, events, script, bad1, bad');
        Continues(p, l, events, more, fd, Write, script, bad');
        TouchedAppend(events, more);
        CarriedOn(old(View()), st, View(), Touched(events), Touched(more), Touched(events + more));
        ContainedOn(old(View()), st, View(), bad, bad1, bad', events, more);
      }
      BranchesOf(events, more, fd, report);
      assert more == [] ==> events + more == events;
      events := events + more;
    }

    /**
     comm_select, with `ready` what the kernel reports on the slots up to maxindex. Whatever the
     handlers do, all slots are right throughout; a handler is taken only for a report of this
     round and once per direction; and every report is served unless a handler made a call on the
     descriptor first. All descriptors agree with their slots too, unless at some point slot 0 of
     the IRC array is disarmed for another descriptor; that takes a report in both directions and
     a handler that closes. Even then a descriptor agrees with its slot if it did not point to slot
     0 before the round and no handler made a call on it.
     */
    method CommSelect(http: bool, ready: seq<Mask>, script: Script, ghost bad: set<int>)
      returns (events: seq<Event>, ghost hit: bool, ghost bad': set<int>)
      requires Separate() && InvBut(View(), bad) && |ready| == ListOf(View(), http).maxindex + 1
      modifies this, table, ircd, httpd
      ensures InvBut(View(), bad') && (bad' == {} <==> bad == {} && !hit)
      ensures forall k :: k in bad' ==> k in bad || (0 <= k < table.Length && AtZero(old(table[..])[k])) || CalledOn(events, k)
      ensures hit ==> Mask(true, true) in ready && exists fd: nat :: Did(Close(fd)) in events
      ensures Handlers(View()) == Replay(old(Handlers(View())), events)
      ensures FiredOnce(events) && Justified(events, old(View().table), ready, |ready|)
      ensures Served(events, old(ListOf(View(), http).slots), ready, |ready|)
      ensures Plays(old(Handlers(View())), old(Lists(View())), events, script, bad')
    {
      hide InvBut, Carried, Handlers, Clobbers, Happened, Served, FiredOnce, Justified, Branches, Polled, Replay, Contained, Lists, ListsOk,
        Placed, Plays;
      ghost var st, l := View(), Lists(View());
      InvShape(st, bad);
      PolledKeeps(st, http, ready, bad);
      if http {
        FillReports(httpd, httpdMax, ready);
      } else {
        FillReports(ircd, ircdMax, ready);
      }
      ghost var polled := View();
      assert polled == WithList(st, http, Polled(ListOf(st, http), ready));
      RoundStarts(st, polled, ListOf(polled, http).slots, ready);
      ContainedSelf(polled, bad);
      ListsStart(st, polled);
      NothingPlays(Handlers(st), l, script, bad);
      events, hit, bad' := [], false, bad;
      var ci := 0;
      while ci < (if http then httpdMax else ircdMax) + 1
        invariant 0 <= ci && InvBut(View(), bad') && Carried(polled, View(), Touched(events)) && (ci == 0 ==> View() == polled)
        invariant (bad' == {} <==> bad == {} && !hit) && Contained(polled, View(), bad, bad', events)
        invariant hit ==> Mask(true, true) in ready && exists fd: nat :: Did(Close(fd)) in events
        invariant Handlers(View()) == Replay(Handlers(st), events) && FiredOnce(events)
        invariant Justified(events, st.table, ready, ci) && Served(events, ListOf(polled, http).slots, ready, ci)
        invariant ListsOk(table[..], Placed(l, events)) && Plays(Handlers(st), l, events, script, bad')
        decreases table.Length - ci
      {
        InvShape(View(), bad');
        var slot := if http then httpd[ci] else ircd[ci];
        if slot.revents == NOTHING || slot.fd == -1 {
          FreeIsUnreported(View(), http, ci, bad');
          ServedSkipped(st, View(), http, ready, events, ci, bad, bad');
          ci := ci + 1;
          continue;
        }
        ReportIsOwn(st, View(), http, ready, Touched(events), ci, bad, bad');
        ghost var before, bad1 := View(), bad';
        var more: seq<Event>;
        ghost var struck: bool;
        var done: nat := |events|;
        var rest := (k: nat) => script(done + k);
        more, struck, bad' := DispatchSlot(slot.fd, slot.revents, rest, bad1, Placed(l, events));
        PlaysBusier(Handlers(st), l, events, script, bad1, bad');
        JoinPlays(Handlers(st), l, events, more, script, rest, bad');
        TouchedAppend(events, more);
        CarriedOn(polled, before, View(), Touched(events), Touched(more), Touched(events + more));
        ContainedOn(polled, before, View(), bad, bad1, bad', events, more);
        ServedMore(events, more, st.table, ListOf(polled, http).slots, ready, slot.fd, ci);
        CloseStays(events, more);
        hit := hit || struck;
        events := events + more;
        ci := ci + 1;
      }
      RoundEnds(st, View(), http, ready, events, ci, bad, bad');
      ContainedBad(polled, View(), bad, bad', events);
    }
  }
}
