/** The paged allocator of the drivers (crates/monoio/src/utils/slab.rs).

    A slab is a fixed array of pages, each twice as large as the one before and created on demand. Inside a page the
    vacant slots that were used before form a linked list through the slots themselves. */
module Slab {
  import opened Prelude

  const NUM_PAGES: nat := 26
  const PAGE_INITIAL_SIZE: nat := 64
  const COMPACT_INTERVAL: nat := 2048
  const U32_LIMIT: nat := 0x1_0000_0000

  // ----- keys and pages -----

  function Pow2(n: nat): (r: nat)
    ensures r > 0
  {
    if n == 0 then 1 else 2 * Pow2(n - 1)
  }

  function PageSize(i: nat): nat { PAGE_INITIAL_SIZE * Pow2(i) }

  /** The number of slots in the pages before page `i`. */
  function PrevLen(i: nat): nat { PageSize(i) - PAGE_INITIAL_SIZE }

  /** POINTER_WIDTH - n.leading_zeros() */
  function BitLength(n: nat): nat {
    if n == 0 then 0 else 1 + BitLength(n / 2)
  }

  function GetPageId(key: nat): nat {
    var slotShifted := Min(key + PAGE_INITIAL_SIZE, USIZE_MAX) / 128;
    Min(BitLength(slotShifted), NUM_PAGES - 1)
  }

  lemma {:induction false} Pow2Grows(a: nat, b: nat)
    requires a <= b
    ensures Pow2(a) <= Pow2(b)
  {
    if a < b { Pow2Grows(a, b - 1); }
  }

  lemma {:induction false} BitLengthBounds(n: nat)
    ensures n < Pow2(BitLength(n))
    ensures n > 0 ==> BitLength(n) > 0 && Pow2(BitLength(n) - 1) <= n
  {
    if n > 0 { BitLengthBounds(n / 2); }
  }

  lemma BitLengthIs(n: nat, i: nat)
    requires n < Pow2(i) && (i > 0 ==> Pow2(i - 1) <= n)
    ensures BitLength(n) == i
  {
    BitLengthBounds(n);
    if BitLength(n) < i { Pow2Grows(BitLength(n), i - 1); }
    if i < BitLength(n) { Pow2Grows(i, BitLength(n) - 1); }
  }

  lemma LastPage()
    ensures Pow2(25) == 0x200_0000
  {
    assert Pow2(5) == 32;
    assert Pow2(10) == 1024;
    assert Pow2(15) == 0x8000;
    assert Pow2(20) == 0x10_0000;
  }

  /** Page lookup inverts the numbering of slots on every key a page can issue; all of them are below 2^32 - 64. */
  lemma GetPageIdInverts(i: nat, slot: nat)
    requires i < NUM_PAGES && slot < PageSize(i)
    ensures GetPageId(slot + PrevLen(i)) == i
    ensures slot + PrevLen(i) < U32_LIMIT - PAGE_INITIAL_SIZE
  {
    Pow2Grows(i, 25);
    LastPage();
    var n := slot + PAGE_INITIAL_SIZE * Pow2(i);
    assert n <= USIZE_MAX;
    if i == 0 {
      assert n / 128 == 0;
    } else {
      assert Pow2(i) == 2 * Pow2(i - 1);
      assert Pow2(i - 1) <= n / 128 < Pow2(i);
    }
    BitLengthIs(n / 128, i);
  }

  /** On any key at all the lookup names a page that exists in the array and does not start after the key. */
  lemma GetPageIdInRange(key: nat)
    requires key <= USIZE_MAX
    ensures GetPageId(key) < NUM_PAGES && PrevLen(GetPageId(key)) <= key
  {
    var p := GetPageId(key);
    var n := Min(key + PAGE_INITIAL_SIZE, USIZE_MAX);
    BitLengthBounds(n / 128);
    LastPage();
    Pow2Grows(p, 25);
    if p > 0 {
      Pow2Grows(p - 1, BitLength(n / 128) - 1);
      assert Pow2(p) == 2 * Pow2(p - 1) <= 2 * (n / 128);
    }
  }

  // ----- one page -----

  /** A slot of the page's buffer. Reading an Uninit one is what assume_init would make undefined. */
  datatype Slot<T> = Uninit | Vacant(next: nat) | Occupied(val: T)

  /** Following the links from `head` visits the slots of `free` in this order, each once, and ends at `end`. */
  ghost predicate Linked<T>(slots: seq<Slot<T>>, head: nat, free: seq<nat>, end: nat)
    decreases |free|
  {
    if free == [] then head == end
    else
      && head == free[0] && head !in free[1..]
      && head < |slots| && slots[head].Vacant?
      && Linked(slots, slots[head].next, free[1..], end)
  }

  /** The chain depends on its own slots only, and they are vacant. */
  lemma {:induction false} LinkedFrame<T>(a: seq<Slot<T>>, b: seq<Slot<T>>, head: nat, free: seq<nat>, end: nat)
    requires Linked(a, head, free, end) && |a| == |b|
    requires forall s :: s in free && s < |a| ==> b[s] == a[s]
    ensures Linked(b, head, free, end)
    ensures forall s :: s in free ==> s < |a| && a[s].Vacant?
    decreases |free|
  {
    if free != [] {
      assert forall s :: s in free ==> s == head || s in free[1..];
      LinkedFrame(a, b, a[head].next, free[1..], end);
    }
  }

  /** A page whose vacant slots are linked in the order of `free`, and whose other initialized slots hold `contents`;
      `hole` has been handed out and is not filled yet. */
  ghost predicate WellFormed<T>(slots: seq<Slot<T>>, used: nat, initialized: nat, next: nat,
                                contents: map<nat, T>, free: seq<nat>, hole: Option<nat>) {
    && initialized <= |slots|
    && used + |free| == initialized
    && used == |contents| + (if hole.Some? then 1 else 0)
    && (hole.Some? ==> hole.value < initialized)
    && Linked(slots, next, free, initialized)
    && (forall s :: s in free ==> s < initialized && s !in contents && hole != Some(s))
    && (forall s :: s in contents ==> s < initialized && slots[s] == Occupied(contents[s]))
    && (forall s :: 0 <= s < initialized && hole != Some(s) ==> s in contents || s in free)
    && (hole.Some? ==> hole.value !in contents)
  }

  lemma LinkedPush<T>(slots: seq<Slot<T>>, slot: nat, head: nat, free: seq<nat>, end: nat)
    requires Linked(slots, head, free, end) && slot < |slots| && slot !in free
    ensures Linked(slots[slot := Vacant(head)], slot, [slot] + free, end)
  {
    LinkedFrame(slots, slots[slot := Vacant(head)], head, free, end);
    assert ([slot] + free)[1..] == free;
  }

  lemma CardinalityWithout<T>(m: map<nat, T>, k: nat)
    requires k in m
    ensures |Without(m, k)| == |m| - 1
  {
    assert Without(m, k).Keys == m.Keys - {k};
  }

  class Page<T> {
    const slots: array<Slot<T>>
    const prevLen: nat
    var used: nat
    var initialized: nat
    var next: nat
    ghost var contents: map<nat, T>
    ghost var free: seq<nat>  // the vacant slots in the order of their links

    /** Everything but the slot `hole`, which alloc has handed out and set has not filled yet. */
    ghost predicate ValidBut(hole: Option<nat>)
      reads this, slots
    {
      WellFormed(slots[..], used, initialized, next, contents, free, hole)
    }

    ghost predicate Valid()
      reads this, slots
    {
      ValidBut(None)
    }

    constructor (size: nat, prevLen: nat)
      ensures Valid() && contents == map[] && slots.Length == size && this.prevLen == prevLen
      ensures fresh(slots)
    {
      slots := new Slot<T>[size](_ => Uninit);
      this.prevLen := prevLen;
      used, initialized, next := 0, 0, 0;
      contents, free := map[], [];
    }

    predicate IsEmpty()
      reads this
    {
      used == 0
    }

    predicate IsFull()
      reads this, slots
    {
      used == slots.Length
    }

    /** None exactly when every slot is occupied; else the slot freed last, or the first one never used. */
    method Alloc() returns (slot: Option<nat>)
      requires Valid()
      modifies this
      ensures contents == old(contents)
      ensures slot.None? <==> |contents| == slots.Length
      ensures slot.None? ==> unchanged(this)
      ensures slot.Some? ==> ValidBut(slot) && slot.value !in contents && slot.value < slots.Length
      ensures slot.Some? ==>
                if old(free) == [] then slot.value == |contents| && free == [] else old(free) == [slot.value] + free
    {
      var n := next;
      if IsFull() {
        assert n == slots.Length by {
          assert free == [];
        }
        return None;
      } else if n >= initialized {
        assert n == initialized;
        initialized := initialized + 1;
        next := next + 1;
      } else {
        match slots[n] {
          case Vacant(nextSlot) => next := nextSlot;
          case _ => assert false;
        }
        assert forall s :: s in free <==> s == n || s in free[1..];
        free := free[1..];
      }
      used := used + 1;
      return Some(n);
    }

    method Set(slot: nat, val: T)
      requires ValidBut(Some(slot)) && slot < slots.Length
      modifies this, slots
      ensures Valid() && contents == old(contents)[slot := val] && free == old(free)
    {
      ghost var before := slots[..];
      slots[slot] := Occupied(val);
      contents := contents[slot := val];
      LinkedFrame(before, slots[..], next, free, initialized);
    }

    /** alloc followed by set, as insert uses them. */
    method AllocAndSet(val: T) returns (slot: Option<nat>)
      requires Valid()
      modifies this, slots
      ensures Valid()
      ensures slot.None? <==> |old(contents)| == slots.Length
      ensures slot.None? ==> unchanged(this) && unchanged(slots)
      ensures slot.Some? ==>
                slot.value < slots.Length && slot.value !in old(contents)
                && contents == With(old(contents), slot.value, val)
    {
      slot := Alloc();
      if slot.Some? {
        Set(slot.value, val);
      }
    }

    method Get(slot: nat) returns (val: Option<T>)
      requires Valid()
      ensures val == if slot in contents then Some(contents[slot]) else None
    {
      if slot >= initialized {
        return None;
      }
      SlotKnown(slot);
      match slots[slot] {
        case Vacant(_) => val := None;
        case Occupied(v) => val := Some(v);
        case Uninit => assert false;
      }
    }

    /** An initialized slot is either occupied or on the free list, never uninitialized. */
    lemma SlotKnown(slot: nat)
      requires Valid() && slot < initialized
      ensures slots[slot].Occupied? <==> slot in contents
      ensures slots[slot].Vacant? <==> slot in free
    {
      LinkedFrame(slots[..], slots[..], next, free, initialized);
    }

    /** Overwrites an occupied slot, as through get_mut. */
    method Put(slot: nat, val: T)
      requires Valid() && slot in contents
      modifies this, slots
      ensures Valid() && contents == old(contents)[slot := val]
    {
      ghost var before := slots[..];
      slots[slot] := Occupied(val);
      contents := contents[slot := val];
      LinkedFrame(before, slots[..], next, free, initialized);
    }

    /** Puts an occupied slot at the head of the free list. */
    method Push(slot: nat)
      requires Valid() && slot in contents
      modifies this, slots
      ensures Valid() && contents == Without(old(contents), slot) && free == [slot] + old(free)
    {
      LinkedPush(slots[..], slot, next, free, initialized);
      CardinalityWithout(contents, slot);
      slots[slot] := Vacant(next);
      next := slot;
      used := used - 1;
      contents := Without(contents, slot);
      free := [slot] + free;
      assert slots[..] == old(slots[..])[slot := Vacant(old(next))];
      assert forall s :: s in free <==> s == slot || s in old(free);
    }

    method Remove(slot: nat) returns (val: Option<T>)
      requires Valid()
      modifies this, slots
      ensures Valid() && contents == Without(old(contents), slot)
      ensures val.None? ==> unchanged(this) && unchanged(slots)
      ensures val == if slot in old(contents) then Some(old(contents)[slot]) else None
    {
      if slot >= initialized {
        return None;
      }
      SlotKnown(slot);
      match slots[slot] {
        case Vacant(_) => return None;
        case Uninit => assert false;
        case Occupied(v) =>
          Push(slot);
          return Some(v);
      }
    }
  }

  // ----- the pages together -----

  /** Where a key lives: slot `slot` of page `page`. */
  datatype Place = Place(page: nat, slot: nat)

  function KeyAt(p: Place): nat { p.slot + PrevLen(p.page) }

  ghost predicate Occupies<T>(parts: seq<map<nat, T>>, p: Place) {
    p.page < |parts| && p.slot in parts[p.page]
  }

  /** `contents` is the union of the pages' maps, each shifted by its offset; `home` tells where a key came from. */
  ghost predicate Assembles<T>(parts: seq<map<nat, T>>, home: map<nat, Place>, contents: map<nat, T>) {
    && |parts| == NUM_PAGES
    && home.Keys == contents.Keys
    && (forall k :: k in home ==>
          Occupies(parts, home[k]) && KeyAt(home[k]) == k && contents[k] == parts[home[k].page][home[k].slot])
    && (forall p :: Occupies(parts, p) ==> p.slot < PageSize(p.page) && KeyAt(p) in home && home[KeyAt(p)] == p)
  }

  /** get_page_id finds the page of every key in use, whatever the word asked for. */
  lemma LookupFinds<T>(parts: seq<map<nat, T>>, home: map<nat, Place>, contents: map<nat, T>, k: nat)
    requires Assembles(parts, home, contents) && k <= USIZE_MAX
    ensures var i := GetPageId(k);
      && i < NUM_PAGES && PrevLen(i) <= k
      && (k in contents <==> k - PrevLen(i) in parts[i])
      && (k in contents ==>
            home[k].page == i && contents[k] == parts[i][k - PrevLen(i)] && k < U32_LIMIT - PAGE_INITIAL_SIZE)
  {
    GetPageIdInRange(k);
    if k in contents {
      assert Occupies(parts, home[k]);
      GetPageIdInverts(home[k].page, home[k].slot);
    } else {
      var p := Place(GetPageId(k), k - PrevLen(GetPageId(k)));
      assert Occupies(parts, p) ==> KeyAt(p) == k;
    }
  }

  lemma AssembleWrite<T>(parts: seq<map<nat, T>>, home: map<nat, Place>, contents: map<nat, T>, p: Place, val: T)
    requires Assembles(parts, home, contents) && p.page < NUM_PAGES && p.slot < PageSize(p.page)
    ensures KeyAt(p) < U32_LIMIT - PAGE_INITIAL_SIZE
    ensures KeyAt(p) in contents <==> p.slot in parts[p.page]
    ensures Assembles(parts[p.page := With(parts[p.page], p.slot, val)],
                      With(home, KeyAt(p), p), With(contents, KeyAt(p), val))
  {
    GetPageIdInverts(p.page, p.slot);
    LookupFinds(parts, home, contents, KeyAt(p));
    var parts' := parts[p.page := With(parts[p.page], p.slot, val)];
    forall q
      ensures Occupies(parts', q) <==> q == p || Occupies(parts, q)
    {
    }
  }

  lemma AssembleRemove<T>(parts: seq<map<nat, T>>, home: map<nat, Place>, contents: map<nat, T>, p: Place)
    requires Assembles(parts, home, contents) && p.page < NUM_PAGES && p.slot in parts[p.page]
    ensures Assembles(parts[p.page := Without(parts[p.page], p.slot)],
                      Without(home, KeyAt(p)), Without(contents, KeyAt(p)))
  {
  }

  /** The keys that live in the first `n` pages. */
  ghost function KeysBelow(home: map<nat, Place>, n: nat): set<nat> {
    set k | k in home && home[k].page < n
  }

  lemma {:induction false} ShiftedSize(slots: set<nat>, page: nat, keys: set<nat>)
    requires forall k :: k in keys <==> exists s :: s in slots && KeyAt(Place(page, s)) == k
    ensures |keys| == |slots|
    decreases |slots|
  {
    if s :| s in slots {
      var k := KeyAt(Place(page, s));
      assert k in keys;
      forall j
        ensures j in keys - {k} <==> exists t :: t in slots - {s} && KeyAt(Place(page, t)) == j
      {
        if j in keys - {k} {
          var t :| t in slots && KeyAt(Place(page, t)) == j;
          assert t in slots - {s};
        }
      }
      ShiftedSize(slots - {s}, page, keys - {k});
    } else {
      assert forall k :: k !in keys;
    }
  }

  lemma KeysHere<T>(parts: seq<map<nat, T>>, home: map<nat, Place>, contents: map<nat, T>, i: nat, here: set<nat>)
    requires Assembles(parts, home, contents) && i < NUM_PAGES && here == set k | k in home && home[k].page == i
    ensures |here| == |parts[i]|
  {
    forall k
      ensures k in here <==> exists s :: s in parts[i].Keys && KeyAt(Place(i, s)) == k
    {
      if k in here {
        assert Occupies(parts, home[k]) && home[k] == Place(i, home[k].slot);
      } else if s :| s in parts[i].Keys && KeyAt(Place(i, s)) == k {
        assert Occupies(parts, Place(i, s));
      }
    }
    ShiftedSize(parts[i].Keys, i, here);
  }

  /** Page `i` contributes as many keys as it has occupied slots. */
  lemma KeysOfPage<T>(parts: seq<map<nat, T>>, home: map<nat, Place>, contents: map<nat, T>, i: nat)
    requires Assembles(parts, home, contents) && i < NUM_PAGES
    ensures |KeysBelow(home, i + 1)| == |KeysBelow(home, i)| + |parts[i]|
  {
    var here := set k | k in home && home[k].page == i;
    KeysHere(parts, home, contents, i, here);
    assert KeysBelow(home, i + 1) == KeysBelow(home, i) + here && KeysBelow(home, i) !! here;
  }

  // ----- the slab -----

  class Slab<T> {
    var pages: seq<Page?<T>>
    var wPageId: nat
    var generation: nat
    ghost var contents: map<nat, T>
    ghost var parts: seq<map<nat, T>>  // the contents page by page
    ghost var home: map<nat, Place>
    ghost var Repr: set<object>

    ghost predicate PageOk(i: nat)
      requires i < |pages| && i < |parts|
      reads this, Repr
    {
      if pages[i] == null then parts[i] == map[]
      else
        && pages[i] in Repr && pages[i].slots in Repr && this !in {pages[i], pages[i].slots}
        && pages[i].Valid() && pages[i].contents == parts[i]
        && pages[i].prevLen == PrevLen(i) && pages[i].slots.Length == PageSize(i)
    }

    ghost predicate PagesOk()
      reads this, Repr
    {
      && this in Repr && |pages| == |parts| == NUM_PAGES
      && (forall i :: 0 <= i < NUM_PAGES ==> PageOk(i))
      && (forall i, j :: 0 <= i < j < NUM_PAGES && pages[i] != null && pages[j] != null ==>
            pages[i] != pages[j] && pages[i].slots != pages[j].slots)
      && (forall i, j :: 0 <= i < j < NUM_PAGES && pages[j] != null ==> pages[i] != null)
      && wPageId < NUM_PAGES && (wPageId > 0 ==> pages[wPageId] != null)
      && generation < U32_LIMIT
    }

    ghost predicate Valid()
      reads this, Repr
      ensures Valid() ==> this in Repr
    {
      PagesOk() && Assembles(parts, home, contents)
    }

    constructor ()
      ensures Valid() && fresh(Repr) && contents == map[]
    {
      pages := seq(NUM_PAGES, _ => null);
      wPageId, generation := 0, 0;
      contents, home := map[], map[];
      parts := seq(NUM_PAGES, _ => map[]);
      Repr := {this};
    }

    /** The entry under a key, if there is one; any machine word is a legal key. */
    method Get(key: nat) returns (val: Option<T>)
      requires Valid() && key <= USIZE_MAX
      ensures val == if key in contents then Some(contents[key]) else None
    {
      var pageId := GetPageId(key);
      LookupFinds(parts, home, contents, key);
      assert PageOk(pageId);
      if pages[pageId] == null {
        return None;
      }
      val := pages[pageId].Get(key - pages[pageId].prevLen);
    }

    /** Only page `i` changed, which may be new, or gone. */
    twostate predicate OnlyPageChanged(i: nat)
      reads this, Repr
    {
      && i < NUM_PAGES && old(|pages|) == |pages| == NUM_PAGES && old(|parts|) == |parts| == NUM_PAGES
      && old(this in Repr) && this in Repr
      && (forall j: nat :: j < NUM_PAGES && j != i ==>
            && pages[j] == old(pages[j]) && parts[j] == old(parts[j])
            && (pages[j] != null ==>
                  pages[j] in Repr && unchanged(pages[j]) && pages[j].slots in Repr && unchanged(pages[j].slots)))
    }

    twostate lemma PagesStayOk(i: nat)
      requires old(PagesOk()) && OnlyPageChanged(i) && PageOk(i)
      requires pages[i] == null || pages[i] == old(pages[i])
               || (old(pages[i]) == null && fresh(pages[i]) && fresh(pages[i].slots))
      requires if pages[i] != null then forall j :: 0 <= j < i ==> pages[j] != null
               else forall j :: i < j < NUM_PAGES ==> pages[j] == null
      requires wPageId < NUM_PAGES && (wPageId > 0 ==> pages[wPageId] != null) && generation < U32_LIMIT
      ensures PagesOk()
    {
      forall j | 0 <= j < NUM_PAGES
        ensures PageOk(j)
      {
        assert j != i ==> old(PageOk(j));
      }
    }

    /** A change to one page of a valid slab is a change to nothing else. */
    twostate lemma OthersUnchanged(i: nat)
      requires old(PagesOk()) && i < NUM_PAGES && |pages| == |parts| == NUM_PAGES && old(Repr) <= Repr
      requires forall j: nat :: j < NUM_PAGES && j != i ==> pages[j] == old(pages[j]) && parts[j] == old(parts[j])
      requires forall o: object :: o in old(Repr) && o != this
                                   && (old(pages[i]) != null ==> o != old(pages[i]) && o != old(pages[i].slots)) ==>
                                   unchanged(o)
      ensures OnlyPageChanged(i)
    {
      forall j: nat | j < NUM_PAGES && j != i && pages[j] != null
        ensures pages[j] in Repr && pages[j].slots in Repr && unchanged(pages[j]) && unchanged(pages[j].slots)
      {
        assert old(PageOk(j)) && old(PageOk(i));
      }
    }

    twostate lemma ValidAfterWrite(p: Place)
      requires old(Valid()) && p.page < NUM_PAGES && p.slot < PageSize(p.page) && pages == old(pages)
      requires pages[p.page] != null
      requires Repr == old(Repr) && wPageId < NUM_PAGES && (wPageId > 0 ==> pages[wPageId] != null)
      requires generation == old(generation)
      requires KeyAt(p) in contents && home == With(old(home), KeyAt(p), p)
      requires contents == With(old(contents), KeyAt(p), contents[KeyAt(p)])
      requires parts == old(parts)[p.page := With(old(parts)[p.page], p.slot, contents[KeyAt(p)])]
      requires forall o: object :: o in Repr && o != this && o != pages[p.page] && o != pages[p.page].slots ==>
                                   unchanged(o)
      requires PageOk(p.page)
      ensures Valid() && KeyAt(p) < U32_LIMIT - PAGE_INITIAL_SIZE
      ensures KeyAt(p) in old(contents) <==> p.slot in old(parts)[p.page]
    {
      OthersUnchanged(p.page);
      PagesStayOk(p.page);
      AssembleWrite(old(parts), old(home), old(contents), p, contents[KeyAt(p)]);
    }

    twostate lemma PagesUntouched()
      requires old(PagesOk()) && pages == old(pages) && parts == old(parts) && old(Repr) <= Repr && this in Repr
      requires forall o: object :: o in old(Repr) && o != this ==> unchanged(o)
      requires wPageId < NUM_PAGES && (wPageId > 0 ==> pages[wPageId] != null) && generation < U32_LIMIT
      ensures PagesOk()
    {
      forall j | 0 <= j < NUM_PAGES
        ensures PageOk(j)
      {
        assert old(PageOk(j));
      }
    }

    /** The page at `i`, created if it is not there yet. */
    method PageAt(i: nat) returns (page: Page<T>)
      requires Valid() && i < NUM_PAGES && (forall j :: 0 <= j < i ==> pages[j] != null)
      modifies this
      ensures Valid() && contents == old(contents) && wPageId == old(wPageId) && generation == old(generation)
      ensures page == pages[i] && pages == old(pages)[i := page] && parts == old(parts) && fresh(Repr - old(Repr))
      ensures old(Repr) <= Repr
      ensures old(pages[i]) != null ==> page == old(pages[i])
    {
      if pages[i] == null {
        var created := new Page<T>(PageSize(i), PrevLen(i));
        pages := pages[i := created];
        Repr := Repr + {created, created.slots};
        assert old(PageOk(i));
        OthersUnchanged(i);
        PagesStayOk(i);
      }
      page := pages[i];
    }

    /** Takes a slot in page `i`, unless the page is full, in which case nothing changes. */
    method InsertIn(i: nat, page: Page<T>, val: T) returns (key: Option<nat>)
      requires Valid() && i < NUM_PAGES && page == pages[i]
      modifies this, page, page.slots
      ensures Valid() && Repr == old(Repr) && pages == old(pages) && generation == old(generation)
      ensures key.None? ==>
                unchanged(this) && unchanged(page) && unchanged(page.slots) && |page.contents| == PageSize(i)
      ensures key.Some? ==> key.value !in old(contents) && contents == With(old(contents), key.value, val)
      ensures key.Some? ==> key.value < U32_LIMIT - PAGE_INITIAL_SIZE && wPageId == i
      ensures key.Some? ==> key.value in home && home[key.value].page == i
    {
      assert PageOk(i);
      var slot := page.AllocAndSet(val);
      if slot.None? {
        return None;
      }
      wPageId := i;
      key := Some(slot.value + page.prevLen);
      assert key.value == KeyAt(Place(i, slot.value));
      Enter(Place(i, slot.value), val);
      ValidAfterWrite(Place(i, slot.value));
    }

    /** The ghost side of a write. */
    ghost method Enter(p: Place, val: T)
      requires p.page < |parts|
      modifies this`contents, this`home, this`parts
      ensures contents == With(old(contents), KeyAt(p), val) && home == With(old(home), KeyAt(p), p)
      ensures parts == old(parts)[p.page := With(old(parts)[p.page], p.slot, val)]
    {
      contents, home := With(contents, KeyAt(p), val), With(home, KeyAt(p), p);
      parts := parts[p.page := With(parts[p.page], p.slot, val)];
    }

    ghost method Leave(p: Place)
      requires p.page < |parts|
      modifies this`contents, this`home, this`parts
      ensures contents == Without(old(contents), KeyAt(p)) && home == Without(old(home), KeyAt(p))
      ensures parts == old(parts)[p.page := Without(old(parts)[p.page], p.slot)]
    {
      contents, home := Without(contents, KeyAt(p)), Without(home, KeyAt(p));
      parts := parts[p.page := Without(parts[p.page], p.slot)];
    }

    /** One round of the search for a page with room. */
    method TryPage(i: nat, val: T) returns (key: Option<nat>)
      requires Valid() && i < NUM_PAGES && (forall j :: 0 <= j < i ==> pages[j] != null)
      modifies Repr
      ensures Valid() && fresh(Repr - old(Repr)) && pages[i] != null
      ensures key.Some? ==> key.value !in old(contents) && contents == With(old(contents), key.value, val)
      ensures key.Some? ==> key.value < U32_LIMIT - PAGE_INITIAL_SIZE && wPageId == i && generation == old(generation)
      ensures key.Some? ==> key.value in home && home[key.value].page == i
      ensures key.None? ==> contents == old(contents) && wPageId == old(wPageId) && |parts[i]| == PageSize(i)
      ensures key.None? ==> generation == old(generation) && parts == old(parts)
      ensures key.None? ==>
                forall j :: 0 <= j < NUM_PAGES && j != i ==> pages[j] == old(pages[j])
    {
      var page := PageAt(i);
      assert PageOk(i) && page in Repr && page.slots in Repr;
      key := InsertIn(i, page, val);
      assert key.None? ==> PageOk(i);
    }

    /** Inserts under a fresh key, into the first page from the cached write page on that has room, which becomes the
        write page. The source panics ("out of slot") where this returns None: when every page from the
        cached write page on is there and full. */
    method Insert(val: T) returns (key: Option<nat>)
      requires Valid()
      modifies Repr
      ensures Valid() && fresh(Repr - old(Repr))
      ensures key.Some? ==> key.value !in old(contents) && contents == With(old(contents), key.value, val)
      ensures key.Some? ==> key.value < U32_LIMIT - PAGE_INITIAL_SIZE && old(wPageId) <= wPageId < NUM_PAGES
      ensures key.Some? ==> key.value in home && home[key.value].page == wPageId
      ensures key.Some? ==> forall i :: old(wPageId) <= i < wPageId ==> |old(parts)[i]| == PageSize(i)
      ensures key.None? ==> contents == old(contents) && wPageId == old(wPageId)
      ensures generation == old(generation)
      ensures key.None? ==> forall i :: old(wPageId) <= i < NUM_PAGES ==> |parts[i]| == PageSize(i)
    {
      var i := wPageId;
      while i < NUM_PAGES
        invariant wPageId <= i <= NUM_PAGES && wPageId == old(wPageId)
        invariant Valid() && fresh(Repr - old(Repr)) && contents == old(contents) && parts == old(parts)
        invariant generation == old(generation)
        invariant forall j :: 0 <= j < i ==> pages[j] != null
        invariant forall j :: wPageId <= j < i ==> |parts[j]| == PageSize(j)
      {
        key := TryPage(i, val);
        if key.Some? {
          return;
        }
        i := i + 1;
      }
      return None;
    }

    twostate lemma ValidAfterRemove(p: Place)
      requires old(Valid()) && p.page < NUM_PAGES && p.slot in old(parts)[p.page] && pages == old(pages)
      requires pages[p.page] != null
      requires Repr == old(Repr) && wPageId == old(wPageId) && generation == old(generation)
      requires contents == Without(old(contents), KeyAt(p)) && home == Without(old(home), KeyAt(p))
      requires parts == old(parts)[p.page := Without(old(parts)[p.page], p.slot)]
      requires forall o: object :: o in Repr && o != this && o != pages[p.page] && o != pages[p.page].slots ==>
                                   unchanged(o)
      requires PageOk(p.page)
      ensures Valid()
    {
      assert old(PageOk(p.page));
      OthersUnchanged(p.page);
      PagesStayOk(p.page);
      AssembleRemove(old(parts), old(home), old(contents), p);
    }

    /** Page::remove, and what it means for the slab. */
    method RemoveIn(i: nat, page: Page<T>, slot: nat) returns (val: Option<T>)
      requires Valid() && i < NUM_PAGES && page == pages[i]
      modifies this, page, page.slots
      ensures Valid() && Repr == old(Repr)
      ensures val == if slot in old(parts)[i] then Some(old(parts)[i][slot]) else None
      ensures val.None? ==> contents == old(contents)
      ensures val.Some? ==> contents == Without(old(contents), KeyAt(Place(i, slot)))
      ensures pages == old(pages) && wPageId == old(wPageId) && generation == old(generation)
    {
      assert PageOk(i);
      val := page.Remove(slot);
      if val.Some? {
        Leave(Place(i, slot));
        ValidAfterRemove(Place(i, slot));
      }
    }

    /** Exactly the last allocated page is gone, if it is not the first and nothing is in it. */
    twostate predicate LastPageGivenUp()
      reads this
    {
      && |pages| == |parts| == |old(pages)| == NUM_PAGES
      && forall i :: 0 <= i < NUM_PAGES ==>
           pages[i] == if i > 0 && (forall j :: i < j < NUM_PAGES ==> old(pages)[j] == null) && parts[i] == map[]
                       then null else old(pages)[i]
    }

    /** What a counted removal does: every 2048th makes page 0 the write page and gives up the last page if it can. */
    twostate predicate Counted()
      reads this
    {
      && generation == (old(generation) + 1) % 0x1_0000_0000
      && if generation % 2048 == 0 then wPageId == 0 && LastPageGivenUp()
         else wPageId == old(wPageId) && pages == old(pages)
    }

    method MarkRemove()
      requires Valid()
      modifies this
      ensures Valid() && Repr == old(Repr) && contents == old(contents) && parts == old(parts) && Counted()
    {
      generation := (generation + 1) % U32_LIMIT;
      PagesUntouched();
      if generation % COMPACT_INTERVAL == 0 {
        wPageId := 0;
        PagesUntouched();
        GiveUpLastPage();
      }
    }

    method GiveUpLastPage()
      requires Valid() && wPageId == 0
      modifies this`pages
      ensures Valid() && LastPageGivenUp()
    {
      var id := LastPageId();
      assert PageOk(id);
      assert forall j :: id < j < NUM_PAGES ==> PageOk(j);
      if pages[id] != null && pages[id].IsEmpty() && id > 0 {
        pages := pages[id := null];
        OthersUnchanged(id);
        PagesStayOk(id);
      }
    }

    /** The last allocated page, or 0 if there is none. */
    method LastPageId() returns (id: nat)
      requires Valid()
      ensures id < NUM_PAGES && (id > 0 ==> pages[id] != null)
      ensures forall j :: id < j < NUM_PAGES ==> pages[j] == null
    {
      id := NUM_PAGES - 1;
      while id > 0 && pages[id] == null
        invariant id < NUM_PAGES && forall j :: id < j < NUM_PAGES ==> pages[j] == null
      {
        id := id - 1;
      }
    }

    /** The page number of the key decides whether the removal counts: it does if that page is allocated, even if the
        key is not there. */
    method Remove(key: nat) returns (val: Option<T>)
      requires Valid() && key <= USIZE_MAX
      modifies Repr
      ensures Valid() && Repr == old(Repr)
      ensures if old(pages[GetPageId(key)]) == null then unchanged(this) else Counted()
      ensures val == if key in old(contents) then Some(old(contents)[key]) else None
      ensures contents == if val.Some? then Without(old(contents), key) else old(contents)
    {
      var pageId := GetPageId(key);
      LookupFinds(parts, home, contents, key);
      assert PageOk(pageId);
      if pages[pageId] == null {
        return None;
      }
      val := RemoveAt(pageId, key - pages[pageId].prevLen);
      MarkRemove();
    }

    method RemoveAt(i: nat, slot: nat) returns (val: Option<T>)
      requires Valid() && i < NUM_PAGES && pages[i] != null
      modifies Repr
      ensures Valid() && Repr == old(Repr)
      ensures val == if slot in old(parts)[i] then Some(old(parts)[i][slot]) else None
      ensures contents == if val.Some? then Without(old(contents), KeyAt(Place(i, slot))) else old(contents)
      ensures pages == old(pages) && wPageId == old(wPageId) && generation == old(generation)
    {
      assert PageOk(i);
      val := RemoveIn(i, pages[i], slot);
    }

    /** Ref::remove: the Ref proves the key is there, so unwrap_unchecked is safe. */
    method RefRemove(key: nat) returns (val: T)
      requires Valid() && key <= USIZE_MAX && key in contents
      modifies Repr
      ensures Valid() && Repr == old(Repr)
      ensures contents == Without(old(contents), key) && val == old(contents)[key] && Counted()
    {
      assert PageOk(GetPageId(key)) by {
        GetPageIdInRange(key);
      }
      LookupFinds(parts, home, contents, key);
      var removed := Remove(key);
      assert removed.Some?;
      val := removed.value;
    }

    /** A write through the Ref (AsMut). */
    method RefWrite(key: nat, val: T)
      requires Valid() && key <= USIZE_MAX && key in contents
      modifies Repr
      ensures Valid() && Repr == old(Repr) && contents == With(old(contents), key, val)
    {
      var pageId := GetPageId(key);
      LookupFinds(parts, home, contents, key);
      assert PageOk(pageId);
      assert KeyAt(Place(pageId, key - pages[pageId].prevLen)) == key;
      assert Occupies(parts, Place(pageId, key - pages[pageId].prevLen));
      WriteIn(pageId, pages[pageId], key - pages[pageId].prevLen, val);
    }

    method WriteIn(i: nat, page: Page<T>, slot: nat, val: T)
      requires Valid() && i < NUM_PAGES && page == pages[i] && slot in parts[i] && slot < PageSize(i)
      modifies this, page, page.slots
      ensures Valid() && Repr == old(Repr) && contents == With(old(contents), KeyAt(Place(i, slot)), val)
    {
      assert PageOk(i);
      page.Put(slot, val);
      Enter(Place(i, slot), val);
      ValidAfterWrite(Place(i, slot));
    }

    /** The sum of the pages' `used` is the size of the map. */
    method Len() returns (len: nat)
      requires Valid()
      ensures len == |contents|
    {
      len := 0;
      for i := 0 to NUM_PAGES
        invariant len == |KeysBelow(home, i)|
      {
        assert PageOk(i);
        KeysOfPage(parts, home, contents, i);
        if pages[i] != null {
          len := len + pages[i].used;
        }
      }
      assert forall k :: k in home ==> Occupies(parts, home[k]);
      assert KeysBelow(home, NUM_PAGES) == home.Keys;
    }
  }
}
