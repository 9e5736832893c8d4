/** The slotted page itself: fields, slot array, heap bytes and hints, changed in place. `Contents` is the
    node the page stands for, and every method is proved against the node operation. `Valid` is what all
    operations keep: exact accounting, disjoint ranges, sorted keys within the fences, and hints that equal
    the heads they stand for. */
module Pages {
  import opened Keys
  import opened Nodes
  import opened Spaces
  import opened Layouts
  import opened Searches
  import opened Blocks
  import opened Reads
  import opened Lookups

  class BTreeNode {
    var isLeaf: bool
    var link: Pid        // right-most child of an inner node, right neighbour of a leaf
    var lowerFence: Fence
    var upperFence: Fence
    var count: nat
    var spaceUsed: int
    var dataOffset: int
    var prefixLen: nat
    const hint: array<int>
    const slot: array<Slot>
    const heap: array<Byte>

    ghost predicate Wired()
      reads this
    {
      hint.Length == HINTS && slot.Length == MAX_SLOTS && heap.Length == PAGE_SIZE && count <= MAX_SLOTS
    }

    /** The page as if it had `n` slots. */
    ghost function Upto(n: nat): Page
      requires Wired() && n <= MAX_SLOTS
      reads this, slot, heap
    {
      Page(isLeaf, link, lowerFence, upperFence, spaceUsed, dataOffset, prefixLen, slot[..n], heap[..])
    }

    ghost function Snapshot(): Page
      requires Wired()
      reads this, slot, heap
    {
      Upto(count)
    }

    ghost predicate Valid()
      reads this, hint, slot, heap
    {
      && Wired() && Laid(Snapshot()) && WellFormed(View(Snapshot()))
      && HintsFit(slot[..count], hint[..])
    }

    /** The node the page stands for. */
    ghost function Contents(): Node
      requires Valid()
      reads this, hint, slot, heap
    {
      View(Snapshot())
    }

    /** An empty page without fences: as a leaf, the first root. */
    constructor (leaf: bool)
      ensures Wired() && fresh(hint) && fresh(slot) && fresh(heap)
      ensures isLeaf == leaf && link == NO_NEIGHBOUR && count == 0 && spaceUsed == 0 && dataOffset == PAGE_SIZE
      ensures prefixLen == 0
      ensures Valid() && Contents() == Node(leaf, [], [], [], [], NO_NEIGHBOUR)
    {
      isLeaf := leaf;
      link := NO_NEIGHBOUR;
      lowerFence, upperFence := Fence(0, 0), Fence(0, 0);
      count, spaceUsed, dataOffset, prefixLen := 0, 0, PAGE_SIZE, 0;
      hint := new int[HINTS];
      slot := new Slot[MAX_SLOTS];
      heap := new Byte[PAGE_SIZE](_ => 0);
      new;
      EmptyLaid(Snapshot());
    }

    // ----- hints -----

    method MakeHint()
      requires Wired()
      modifies hint
      ensures HintsFit(slot[..count], hint[..])
    {
      hide HintSlot, HintsFit;
      var dist := count / (HINTS + 1);
      var i := 0;
      while i < HINTS
        invariant 0 <= i <= HINTS
        invariant forall j: nat | j < i :: HintSlot(count, j) < MAX_SLOTS && hint[j] == slot[HintSlot(count, j)].head
      {
        HintReadable(count, i);
        hint[i] := slot[dist * (i + 1)].head;
        i := i + 1;
      }
      HintsRead(slot[..], count, hint[..]);
    }

    /** Refreshes the hints after an insert at `slotId`, but only from where they can have changed. */
    method UpdateHint(slotId: nat)
      requires Wired() && slotId < count
      requires forall i: nat | i < HINTS && i < RefreshFrom(count, slotId) :: HintAt(slot[..count], hint[..], i)
      modifies hint
      ensures HintsFit(slot[..count], hint[..])
    {
      var dist := count / (HINTS + 1);
      var begin := 0;
      if count > HINTS * 2 + 1 && (count - 1) / (HINTS + 1) == dist && slotId / dist > 1 {
        begin := slotId / dist - 1;
      }
      HintsKept(slot[..], count, hint[..], slotId);
      assert begin == RefreshFrom(count, slotId);
      hide RefreshFrom, HintSlot, HintsFit, HintAt;
      var i := begin;
      while i < HINTS
        invariant begin <= i
        invariant forall j: nat | j < i && j < HINTS :: HintSlot(count, j) < MAX_SLOTS && hint[j] == slot[HintSlot(count, j)].head
      {
        HintReadable(count, i);
        hint[i] := slot[dist * (i + 1)].head;
        i := i + 1;
      }
      HintsRead(slot[..], count, hint[..]);
    }

    /** The first hint that is not below the head, and the first from there that differs from it. */
    method HintPositions(keyHead: int) returns (pos: nat, pos2: nat)
      requires Wired()
      ensures pos == NotBelow(hint[..], keyHead, 0) && pos2 == Different(hint[..], keyHead, pos)
    {
      pos := 0;
      while pos < HINTS && hint[pos] < keyHead
        invariant 0 <= pos <= HINTS && NotBelow(hint[..], keyHead, 0) == NotBelow(hint[..], keyHead, pos)
      {
        pos := pos + 1;
      }
      pos2 := pos;
      while pos2 < HINTS && hint[pos2] == keyHead
        invariant pos <= pos2 <= HINTS && Different(hint[..], keyHead, pos) == Different(hint[..], keyHead, pos2)
      {
        pos2 := pos2 + 1;
      }
    }

    /** Narrows the search with the hints; the narrowed range is right for keys with the page's prefix. */
    method SearchHint(keyHead: int, ghost key: Bytes) returns (lower: nat, upper: nat)
      requires Valid() && (HasPrefix(Snapshot(), key) ==> keyHead == Head(key[prefixLen..]))
      ensures lower <= upper <= count && (lower, upper) == Narrow(count, hint[..], keyHead)
      ensures HasPrefix(Snapshot(), key) ==> Bracket(Contents().keys, key, lower, upper)
    {
      hide Laid, WellFormed, View, Head, Bracket, HintsFit, Lo, Shape, HasPrefix, NotBelow, Different;
      ghost var p := Snapshot();
      SortedView(p);
      if HasPrefix(p, key) { NarrowRight(p, hint[..], key); }
      lower, upper := 0, count;
      if count > HINTS * 2 {
        var dist := upper / (HINTS + 1);
        var pos, pos2 := HintPositions(keyHead);
        HintRange(count, dist, pos, pos2);
        lower := pos * dist;
        if pos2 < HINTS { upper := (pos2 + 1) * dist; }
      }
    }

    // ----- search -----

    /** Compares `n` bytes of a key with the heap from `at` on. */
    method CompareAt(x: Bytes, at: nat, after: Bytes, n: nat) returns (cmp: int)
      requires Wired() && Shape(Snapshot()) && at + n <= PAGE_SIZE && ReadEnd(n) <= |x| && |after| >= 15
      ensures cmp == Raw(x, From(Snapshot(), at, after), n)
    {
      hide Shape, Diff;
      assert heap[at..] == heap[..][at..];
      cmp := Memcmp(x, heap[at..] + after, n);
    }

    /** The binary search, with what its comparisons read on. */
    method BisectSlots(key: Bytes, behind: Bytes, after: Bytes, from: nat, to: nat) returns (pos: nat, found: bool)
      requires Wired() && Laid(Snapshot()) && |behind| >= 15 && |after| >= 15 && from <= to <= count
      ensures (pos, found) == Bisect(Snapshot(), after, key, behind, from, to)
    {
      hide Head, Shape, RangesApart, HeadsFit, Accounted, Raw, From, View, SuffixAt, Bisect;
      ghost var p := Snapshot();
      LowerMemory(p, after, 0);
      BisectEnd(p, after, key, behind);
      var keyHead := Head(key);
      var lower, upper := from, to;
      while lower < upper
        invariant from <= lower <= upper <= to
        invariant Bisect(p, after, key, behind, lower, upper) == Bisect(p, after, key, behind, from, to)
        decreases upper - lower
      {
        var mid: nat := (upper - lower) / 2 + lower;
        BisectStep(p, after, key, behind, lower, upper);
        if keyHead < slot[mid].head {
          upper := mid;
        } else if keyHead > slot[mid].head {
          lower := mid + 1;
        } else {
          var m := Min(|key|, slot[mid].keyLen);
          SlotMemory(p, after, mid, m);
          var cmp := CompareAt(key + behind, slot[mid].offset, after, m);
          if cmp < 0 {
            upper := mid;
          } else if cmp > 0 {
            lower := mid + 1;
          } else if |key| < slot[mid].keyLen {
            upper := mid;
          } else if |key| > slot[mid].keyLen {
            lower := mid + 1;
          } else {
            return mid, true;
          }
        }
      }
      return lower, false;
    }

    /** The search as memory makes it, and the plain lexicographic lower bound with the right flag for every key
        whose comparisons do not depend on the bytes behind it. */
    method LowerBound(skey: Bytes, behind: Bytes, after: Bytes) returns (pos: nat, found: bool)
      requires Valid() && |behind| >= 15 && |after| >= 15
      ensures pos <= count && (pos, found) == Search(Snapshot(), hint[..], after, skey, behind)
      ensures Searchable(Contents(), skey) ==> pos == Nodes.LowerBound(Contents().keys, skey) && found == Found(Contents().keys, skey)
    {
      hide Laid, WellFormed, View, Head, HintsFit, Nodes.LowerBound, Found, Shape, Searchable, Narrow,
           SearchHarmless, Raw, Bisect, From;
      ghost var p := Snapshot();
      SortedView(p);
      if Searchable(View(p), skey) {
        ClearHarmless(p, hint[..], after, skey);
        HarmlessExact(p, hint[..], after, skey, behind);
      }
      LowerMemory(p, after, 0);
      var cmp := CompareAt(skey + behind, lowerFence.offset, after, Min(|skey|, prefixLen));
      if cmp < 0 { return 0, false; }
      if cmp > 0 { return count, false; }
      if |skey| < prefixLen { return 0, false; }
      var key := skey[prefixLen..];
      var keyHead := Head(key);
      var lower, upper := SearchHint(keyHead, skey);
      pos, found := BisectSlots(key, behind, after, lower, upper);
    }

    /** The slot alone, with whatever bytes are behind the key and the page. */
    method LowerBoundSlot(skey: Bytes) returns (pos: nat)
      requires Valid()
      ensures pos <= count
      ensures Searchable(Contents(), skey) ==> pos == Nodes.LowerBound(Contents().keys, skey)
    {
      hide Laid, WellFormed, View, HintsFit, Nodes.LowerBound, Shape, Searchable, Search;
      var behind := SomeBytes();
      var after := SomeBytes();
      var found;
      pos, found := LowerBound(skey, behind, after);
    }

    // ----- writing -----

    method WriteBytes(at: nat, bytes: Bytes)
      requires heap.Length == PAGE_SIZE && at + |bytes| <= PAGE_SIZE
      modifies heap
      ensures heap[..] == Splice(old(heap[..]), at, bytes)
    {
      forall k | 0 <= k < |bytes| { heap[at + k] := bytes[k]; }
      assert heap[..] == Splice(old(heap[..]), at, bytes);
    }

    /** Writes key suffix and payload below the heap and describes them in slot `slotId`. */
    method StoreKeyValue(slotId: nat, skey: Bytes, payload: Bytes)
      requires slot.Length == MAX_SLOTS && heap.Length == PAGE_SIZE && slotId < MAX_SLOTS && prefixLen <= |skey|
      requires |skey| - prefixLen + |payload| <= dataOffset <= PAGE_SIZE
      modifies this`dataOffset, this`spaceUsed, slot, heap
      ensures dataOffset == old(dataOffset) - (|skey| - prefixLen + |payload|)
      ensures spaceUsed == old(spaceUsed) + (|skey| - prefixLen + |payload|)
      ensures slot[..] == old(slot[..])[slotId := Slot(dataOffset, |skey| - prefixLen, |payload|,
          Head(skey[prefixLen..]))]
      ensures heap[..] == Splice(old(heap[..]), dataOffset, skey[prefixLen..] + payload)
    {
      hide Splice, Head;
      var key := skey[prefixLen..];
      var space := |key| + |payload|;
      dataOffset := dataOffset - space;
      spaceUsed := spaceUsed + space;
      slot[slotId] := Slot(dataOffset, |key|, |payload|, Head(key));
      WriteBytes(slot[slotId].offset, key + payload);
    }

    /** Shifts the slots from `slotId` up by one. */
    method OpenSlot(slotId: nat)
      requires slot.Length == MAX_SLOTS && slotId <= count < MAX_SLOTS
      modifies slot
      ensures forall k | 0 <= k <= slotId :: slot[k] == old(slot[k])
      ensures forall k | slotId < k <= count :: slot[k] == old(slot[k - 1])
    {
      forall k | slotId < k <= count { slot[k] := slot[k - 1]; }
    }

    method CloseSlot(slotId: nat)
      requires slot.Length == MAX_SLOTS && slotId < count <= MAX_SLOTS
      modifies slot
      ensures forall k | 0 <= k < slotId :: slot[k] == old(slot[k])
      ensures forall k | slotId <= k < count - 1 :: slot[k] == old(slot[k + 1])
    {
      forall k | slotId <= k < count - 1 { slot[k] := slot[k + 1]; }
    }

    /** Removes the entry at `slotId`; its bytes become garbage until the page is compacted. */
    method RemoveSlot(slotId: nat)
      requires Valid() && slotId < count
      modifies this`spaceUsed, this`count, hint, slot
      ensures Valid() && Contents() == RemoveAt(old(Contents()), slotId)
      ensures count == old(count) - 1
    {
      hide Laid, WellFormed, View, KeysOf, PaysOf, HintsFit;
      ghost var p := Snapshot();
      DropLaid(p, slotId);
      PayLength(p, slotId);
      RemoveWellFormed(View(p), slotId);
      spaceUsed := spaceUsed - slot[slotId].keyLen;
      spaceUsed := spaceUsed - slot[slotId].payLen;
      CloseSlot(slotId);
      count := count - 1;
      MakeHint();
      assert slot[..count] == p.slots[..slotId] + p.slots[slotId + 1..];
      assert Snapshot() == DropAt(p, slotId);
    }

    /** Writes a payload over one of the same length. */
    method WritePayload(slotId: nat, payload: Bytes)
      requires Valid() && slotId < count && |payload| == slot[slotId].payLen
      modifies heap
      ensures Valid() && Contents() == SetPay(old(Contents()), slotId, payload)
    {
      hide Laid, WellFormed, View, KeysOf, PaysOf, HintsFit, Splice;
      ghost var p := Snapshot();
      PayOverLaid(p, slotId, payload);
      PayLength(p, slotId);
      SetPayKeeps(View(p), slotId, payload);
      WriteBytes(slot[slotId].offset + slot[slotId].keyLen, payload);
      assert Snapshot() == PayOver(p, slotId, payload);
    }

    // ----- fences, copying, compaction -----

    method InsertFence(key: Bytes) returns (fk: Fence)
      requires heap.Length == PAGE_SIZE && |key| <= dataOffset <= PAGE_SIZE
      modifies this`dataOffset, this`spaceUsed, heap
      ensures dataOffset == old(dataOffset) - |key| && spaceUsed == old(spaceUsed) + |key|
      ensures fk == Fence(dataOffset, |key|)
      ensures heap[..] == Splice(old(heap[..]), dataOffset, key)
    {
      dataOffset := dataOffset - |key|;
      spaceUsed := spaceUsed + |key|;
      fk := Fence(dataOffset, |key|);
      WriteBytes(dataOffset, key);
    }

    /** Fences of a fresh page, and the length of the prefix they share. */
    method SetFences(lo: Bytes, hi: Bytes)
      requires Wired() && count == 0 && spaceUsed == 0 && dataOffset == PAGE_SIZE && |lo| + |hi| <= PAGE_SIZE - HEADER
      modifies this`lowerFence, this`upperFence, this`dataOffset, this`spaceUsed, this`prefixLen, heap
      ensures Wired() && Snapshot() == Fenced(isLeaf, link, lo, hi, old(heap[..]))
    {
      hide Splice, Common;
      lowerFence := InsertFence(lo);
      upperFence := InsertFence(hi);
      prefixLen := 0;
      while prefixLen < Min(|lo|, |hi|) && lo[prefixLen] == hi[prefixLen]
        invariant prefixLen <= |lo| && prefixLen <= |hi|
        invariant forall j | 0 <= j < prefixLen :: lo[j] == hi[j]
        modifies this`prefixLen
      {
        prefixLen := prefixLen + 1;
      }
      CommonUnique(lo, hi, prefixLen);
      assert slot[..count] == [];
    }

    /** Appends entries `srcSlot .. srcSlot + srcCount` of this page to `dst`, cutting or extending the keys
        to the prefix of `dst`. */
    method CopyKeyValueRange(dst: BTreeNode, srcSlot: nat, srcCount: nat)
      requires Wired() && Laid(Snapshot()) && srcSlot + srcCount <= count
      requires dst.Wired() && Laid(dst.Snapshot()) && dst != this && dst.slot != slot && dst.heap != heap
      requires WellFormed(View(Snapshot()))
      requires Shared(dst.Snapshot(), View(Snapshot()).keys[srcSlot..srcSlot + srcCount])
      requires Bulk(View(Snapshot()).keys[srcSlot..srcSlot + srcCount],
          View(Snapshot()).pays[srcSlot..srcSlot + srcCount], dst.prefixLen)
               <= FreeSpace(dst.Snapshot())
      modifies dst`dataOffset, dst`spaceUsed, dst`count, dst.slot, dst.heap
      ensures dst.Wired() && dst.count == old(dst.count) + srcCount
      ensures Appended(old(dst.Snapshot()), dst.Snapshot(), View(Snapshot()).keys[srcSlot..srcSlot + srcCount],
                       View(Snapshot()).pays[srcSlot..srcSlot + srcCount], srcCount)
    {
      hide Laid, WellFormed, View, Shape, Appended, Shared, Bulk, FreeSpace, EntryFits, WithEntry, KeyAt, PayAt;
      ghost var p, d := Snapshot(), dst.Snapshot();
      PageParts(p);
      PageParts(d);
      ghost var keys, pays := View(p).keys[srcSlot..srcSlot + srcCount], View(p).pays[srcSlot..srcSlot + srcCount];
      AppendedNone(d, keys, pays);
      var i := 0;
      var dstSlot := dst.count;
      while i < srcCount
        modifies dst`dataOffset, dst`spaceUsed, dst.slot, dst.heap
        invariant 0 <= i <= srcCount && dstSlot + i <= MAX_SLOTS && dst.Wired() && Snapshot() == p
        invariant Appended(d, dst.Upto(dstSlot + i), keys, pays, i)
      {
        ghost var q := dst.Upto(dstSlot + i);
        EntryView(p, srcSlot + i);
        CopyStep(p, d, q, keys, pays, srcSlot + i, i);
        CopyEntry(srcSlot + i, dst, dstSlot + i);
        i := i + 1;
      }
      dst.count := dst.count + srcCount;
    }

    method CopyEntry(srcSlot: nat, dst: BTreeNode, dstSlot: nat)
      requires Wired() && dst.Wired() && dst != this && dst.slot != slot && dst.heap != heap && dstSlot < MAX_SLOTS
      requires EntryFits(Snapshot(), srcSlot, dst.Upto(dstSlot))
      modifies dst`dataOffset, dst`spaceUsed, dst.slot, dst.heap
      ensures dst.Wired() && dst.Upto(dstSlot + 1) == WithEntry(old(dst.Upto(dstSlot)), Snapshot(), srcSlot)
    {
      hide EntryFits, WithEntry;
      if prefixLen <= dst.prefixLen {
        CopyLonger(srcSlot, dst, dstSlot);
      } else {
        CopyKeyValue(srcSlot, dst, dstSlot);
      }
    }

    /** The prefix grows: the rest of the key and the payload are copied in one piece. */
    method CopyLonger(srcSlot: nat, dst: BTreeNode, dstSlot: nat)
      requires Wired() && dst.Wired() && dst != this && dst.slot != slot && dst.heap != heap && dstSlot < MAX_SLOTS
      requires prefixLen <= dst.prefixLen && EntryFits(Snapshot(), srcSlot, dst.Upto(dstSlot))
      modifies dst`dataOffset, dst`spaceUsed, dst.slot, dst.heap
      ensures dst.Wired() && dst.Upto(dstSlot + 1) == WithEntry(old(dst.Upto(dstSlot)), Snapshot(), srcSlot)
    {
      hide Laid, View, Shape, Splice, Head, KeyAt, PayAt, StoreAt;
      ghost var p, q := Snapshot(), dst.Upto(dstSlot);
      EntryLengths(p, srcSlot);
      EntryBytes(p, srcSlot, dst.prefixLen);
      var s := slot[srcSlot];
      var diff := dst.prefixLen - prefixLen;
      var newKeyLen := s.keyLen - diff;
      var space := newKeyLen + s.payLen;
      dst.dataOffset := dst.dataOffset - space;
      dst.spaceUsed := dst.spaceUsed + space;
      dst.WriteBytes(dst.dataOffset, heap[s.offset + diff..s.offset + diff + space]);
      dst.slot[dstSlot] := Slot(dst.dataOffset, newKeyLen, s.payLen, Head(heap[s.offset + diff..s.offset + s.keyLen]));
      assert dst.slot[..dstSlot + 1] == q.slots + [dst.slot[dstSlot]];
      StoreIs(q, dst.Upto(dstSlot + 1), KeyAt(p, srcSlot), PayAt(p, srcSlot));
    }

    /** The prefix shrinks: the full key is put together and stored again. */
    method CopyKeyValue(srcSlot: nat, dst: BTreeNode, dstSlot: nat)
      requires Wired() && dst.Wired() && dst != this && dst.slot != slot && dst.heap != heap && dstSlot < MAX_SLOTS
      requires EntryFits(Snapshot(), srcSlot, dst.Upto(dstSlot))
      modifies dst`dataOffset, dst`spaceUsed, dst.slot, dst.heap
      ensures dst.Wired() && dst.Upto(dstSlot + 1) == WithEntry(old(dst.Upto(dstSlot)), Snapshot(), srcSlot)
    {
      hide Splice, Head, Laid, Shape, View, KeyAt, PayAt, StoreAt;
      ghost var p, q := Snapshot(), dst.Upto(dstSlot);
      EntryParts(p, srcSlot);
      var s := slot[srcSlot];
      var key := heap[lowerFence.offset..lowerFence.offset + prefixLen] + heap[s.offset..s.offset + s.keyLen];
      dst.StoreKeyValue(dstSlot, key, heap[s.offset + s.keyLen..s.offset + s.keyLen + s.payLen]);
      assert dst.slot[..dstSlot + 1] == q.slots + [dst.slot[dstSlot]];
      StoreIs(q, dst.Upto(dstSlot + 1), KeyAt(p, srcSlot), PayAt(p, srcSlot));
    }

    /** Takes over all of `src`, hints included. */
    method CopyNode(src: BTreeNode)
      requires src != this && src.Wired() && hint.Length == HINTS && slot.Length == MAX_SLOTS
      requires heap.Length == PAGE_SIZE
      requires src.hint != hint && src.slot != slot && src.heap != heap
      modifies this, hint, slot, heap
      ensures Wired() && Snapshot() == src.Snapshot() && hint[..] == src.hint[..] && count == src.count
    {
      CopyHeap(src);
      CopyHints(src);
      CopySlots(src);
      assert slot[..src.count] == src.slot[..][..src.count];
      isLeaf, link, lowerFence, upperFence := src.isLeaf, src.link, src.lowerFence, src.upperFence;
      count, spaceUsed, dataOffset, prefixLen := src.count, src.spaceUsed, src.dataOffset, src.prefixLen;
    }

    method CopyHeap(src: BTreeNode)
      requires heap.Length == PAGE_SIZE && src.heap.Length == PAGE_SIZE && src.heap != heap
      modifies heap
      ensures heap[..] == src.heap[..]
    {
      forall i | 0 <= i < PAGE_SIZE { heap[i] := src.heap[i]; }
    }

    method CopyHints(src: BTreeNode)
      requires hint.Length == HINTS && src.hint.Length == HINTS && src.hint != hint
      modifies hint
      ensures hint[..] == src.hint[..]
    {
      forall i | 0 <= i < HINTS { hint[i] := src.hint[i]; }
    }

    method CopySlots(src: BTreeNode)
      requires slot.Length == MAX_SLOTS && src.slot.Length == MAX_SLOTS && src.slot != slot
      modifies slot
      ensures slot[..] == src.slot[..]
    {
      forall i | 0 <= i < MAX_SLOTS { slot[i] := src.slot[i]; }
    }

    method LowerFenceBytes() returns (b: Bytes)
      requires Wired() && Laid(Snapshot())
      ensures b == Lo(Snapshot())
    {
      hide RangesApart, HeadsFit, Accounted;
      b := heap[lowerFence.offset..lowerFence.offset + lowerFence.len];
    }

    method UpperFenceBytes() returns (b: Bytes)
      requires Wired() && Laid(Snapshot())
      ensures b == Hi(Snapshot())
    {
      hide RangesApart, HeadsFit, Accounted;
      b := heap[upperFence.offset..upperFence.offset + upperFence.len];
    }

    /** A fresh page with fences. */
    static method Fresh(leaf: bool, lo: Bytes, hi: Bytes) returns (n: BTreeNode)
      requires |lo| + |hi| <= PAGE_SIZE - HEADER
      ensures fresh(n) && fresh(n.hint) && fresh(n.slot) && fresh(n.heap) && n.Wired() && n.count == 0
      ensures Bare(n.Snapshot()) && View(n.Snapshot()) == Node(leaf, lo, hi, [], [], NO_NEIGHBOUR)
    {
      hide Laid, WellFormed, View, Shape, HintsFit, Fenced;
      n := new BTreeNode(leaf);
      ghost var heap0 := n.heap[..];
      n.SetFences(lo, hi);
      FencedLaid(leaf, NO_NEIGHBOUR, lo, hi, heap0);
    }

    /** Copies entries to a bare page and sets its link; all its room is then in one piece. */
    method FillFrom(src: BTreeNode, srcSlot: nat, srcCount: nat, newLink: Pid)
      requires Wired() && Bare(Snapshot()) && src != this && src.slot != slot && src.heap != heap
      requires src.Wired() && Laid(src.Snapshot()) && WellFormed(View(src.Snapshot()))
      requires srcSlot + srcCount <= src.count
      requires Copyable(View(Snapshot()), View(src.Snapshot()), srcSlot, srcCount)
      modifies this`dataOffset, this`spaceUsed, this`count, this`link, slot, heap
      ensures Wired() && Laid(Snapshot())
      ensures View(Snapshot()) == Copied(old(View(Snapshot())), View(src.Snapshot()), srcSlot, srcCount, newLink)
      ensures FreeSpace(Snapshot()) == FreeSpaceAfterCompaction(Snapshot())
    {
      hide Laid, WellFormed, View, Shape, Appended, Shared, Bulk, Lo, Hi, Size, Bare, FreeSpace,
           FreeSpaceAfterCompaction, Within;
      ghost var f, p := Snapshot(), src.Snapshot();
      BareParts(f);
      ghost var keys, pays := Slices(f, p, srcSlot, srcCount);
      CopyReady(f, keys, pays);
      src.CopyKeyValueRange(this, srcSlot, srcCount);
      CopyDone(f, Snapshot(), keys, pays, newLink);
      link := newLink;
    }

    /** Rewrites the page without garbage: the node stays the same, and all its room is free at once. */
    method Compactify()
      requires Valid()
      modifies this, hint, slot, heap
      ensures Valid() && Contents() == old(Contents())
      ensures FreeSpace(Snapshot()) == FreeSpaceAfterCompaction(Snapshot()) == old(FreeSpaceAfterCompaction(Snapshot()))
    {
      hide Laid, WellFormed, View, Shape, HintsFit, Lo, Hi, Copied, Copyable, FreeSpace, FreeSpaceAfterCompaction, Bare;
      ghost var p := Snapshot();
      FencesFit(p);
      FreeIsRoom(p);
      var lo := LowerFenceBytes();
      var hi := UpperFenceBytes();
      var tmp := Fresh(isLeaf, lo, hi);
      CopyWhole(p);
      tmp.FillFrom(this, 0, count, link);
      CopyNode(tmp);
      FreeIsRoom(Snapshot());
      MakeHint();
    }

    /** Shifts the slots and stores the entry; the hints still have to follow. */
    method InsertEntryAt(slotId: nat, key: Bytes, payload: Bytes)
      requires Wired() && slotId <= count < MAX_SLOTS && prefixLen <= |key|
      requires |key| - prefixLen + |payload| <= dataOffset <= PAGE_SIZE
      modifies this`dataOffset, this`spaceUsed, this`count, slot, heap
      ensures Wired() && count == old(count) + 1
      ensures Snapshot() == StoreAt(old(Snapshot()), slotId, key, payload)
      ensures exists s :: slot[..count] == old(slot[..count])[..slotId] + [s] + old(slot[..count])[slotId..]
    {
      hide StoreAt, Head, Splice;
      ghost var p, a := Snapshot(), slot[..];
      OpenSlot(slotId);
      ghost var b := slot[..];
      StoreKeyValue(slotId, key, payload);
      Opened(a, b, slot[..], count, slotId, slot[slotId]);
      ghost var s := slot[slotId];
      count := count + 1;
      assert slot[..count] == p.slots[..slotId] + [s] + p.slots[slotId..];
      StoredAt(p, Snapshot(), slotId, key, payload);
    }

    /** Inserts a key that is not there, compacting the page first if its free bytes are scattered. */
    method InsertInPage(key: Bytes, payload: Bytes)
      requires Valid() && CanInsert(Contents(), key, payload)
      modifies this, hint, slot, heap
      ensures Valid() && Contents() == InsertEntry(old(Contents()), key, payload)
      ensures count == old(count) + 1
    {
      hide Laid, WellFormed, View, Shape, HintsFit, Lo, Hi, Size, StoreAt, InsertEntry, Within, HintAt,
           RefreshFrom, Nodes.LowerBound, Found, Head, Splice, Sorted, Searchable;
      FencesFit(Snapshot());
      var needed := SLOT + |key| - prefixLen + |payload|;
      FreeIsRoom(Snapshot());
      if needed > dataOffset - (HEADER + SLOT * count) {
        Compactify();
        FencesFit(Snapshot());
        FreeIsRoom(Snapshot());
      }
      ghost var p := Snapshot();
      InsertReady(p, key, payload);
      ShapeFacts(p);
      var slotId := LowerBoundSlot(key);
      InsertDone(p, hint[..], key, payload);
      InsertEntryAt(slotId, key, payload);
      UpdateHint(slotId);
    }

    // ----- children -----

    method GetChild(slotId: nat) returns (c: Pid)
      requires Valid() && !isLeaf && slotId < count
      ensures Inner(Contents()) && c == Kid(Contents(), slotId)
    {
      hide Laid, Shape, View, WellFormed, HintsFit, PayAt, PidOf;
      ghost var p := Snapshot();
      ChildBytes(p, slotId);
      c := PidOf(heap[slot[slotId].offset + slot[slotId].keyLen..slot[slotId].offset + slot[slotId].keyLen + slot[slotId].payLen]);
    }

    /** The child a search for `key` goes down to. */
    method LookupInner(key: Bytes) returns (c: Pid)
      requires Valid() && !isLeaf
      ensures Inner(old(Contents())) && (Searchable(old(Contents()), key) ==> c == Route(old(Contents()), key))
    {
      hide Laid, Shape, View, WellFormed, HintsFit, Nodes.LowerBound, Found, Sorted, Searchable;
      InnerPage(Snapshot());
      var pos := LowerBoundSlot(key);
      if pos == count { return link; }
      c := GetChild(pos);
    }

    // ----- splitting -----

    /** The parent's side of a split: the old child slot now leads right, a new one leads left. */
    method AddSeparator(sep: Bytes, left: Pid, right: Pid)
      requires Valid() && !isLeaf && CanInsert(Contents(), sep, PidBytes(left))
      modifies this, hint, slot, heap
      ensures Inner(old(Contents())) && Valid() && Contents() == SplitParent(old(Contents()), sep, left, right)
    {
      hide Laid, Shape, View, WellFormed, HintsFit, Nodes.LowerBound, Found, Sorted, InsertEntry, PidBytes,
           CanInsert, SetPay, Searchable;
      ghost var p := Snapshot();
      InnerPage(p);
      SeparatorReady(View(p), sep, left, right);
      var oldParentSlot := LowerBoundSlot(sep);
      if oldParentSlot == count {
        Relink(p, right);
        RelinkHints(p, right);
        link := right;
        assert Snapshot() == p.(link := right);
      } else {
        PayLengthIs(p, oldParentSlot);
        WritePayload(oldParentSlot, PidBytes(right));
      }
      InsertInPage(sep, PidBytes(left));
    }

    /** The left half of this page, as a new page; in an inner node the entry at the slot gives its child away. */
    method LeftHalf(sepSlot: nat, sep: Bytes, newPid: Pid) returns (n: BTreeNode)
      requires Valid() && CanCut(Contents(), sepSlot, sep, newPid)
      ensures fresh(n) && fresh(n.hint) && fresh(n.slot) && fresh(n.heap)
      ensures n.Valid() && n.Contents() == CutLeft(old(Contents()), sepSlot, sep, newPid)
    {
      hide Laid, Shape, View, WellFormed, HintsFit, Size, GoodCut, SplitLeft, SplitRight, Lo, Hi, Copyable, Copied,
           Bare, FreeSpace, FreeSpaceAfterCompaction;
      SplitReady(Snapshot(), sepSlot, sep, newPid);
      var lo := LowerFenceBytes();
      n := Fresh(isLeaf, lo, sep);
      if isLeaf {
        n.FillFrom(this, 0, sepSlot + 1, newPid);
      } else {
        var child := GetChild(sepSlot);
        n.FillFrom(this, 0, sepSlot, child);
      }
      n.MakeHint();
    }

    method RightHalf(sepSlot: nat, sep: Bytes, ghost newPid: Pid) returns (n: BTreeNode)
      requires Valid() && CanCut(Contents(), sepSlot, sep, newPid)
      ensures fresh(n) && fresh(n.hint) && fresh(n.slot) && fresh(n.heap)
      ensures n.Valid() && n.Contents() == CutRight(old(Contents()), sepSlot, sep, newPid)
    {
      hide Laid, Shape, View, WellFormed, HintsFit, Size, GoodCut, SplitLeft, SplitRight, Lo, Hi, Copyable, Copied,
           Bare, FreeSpace, FreeSpaceAfterCompaction;
      SplitReady(Snapshot(), sepSlot, sep, newPid);
      var hi := UpperFenceBytes();
      n := Fresh(isLeaf, sep, hi);
      n.FillFrom(this, sepSlot + 1, count - sepSlot - 1, link);
      n.MakeHint();
    }

    /** Moves the entries behind `sepSlot` to a new page and gives the parent the separator. */
    method SplitNode(parent: BTreeNode, sepSlot: nat, sep: Bytes, leftPid: Pid, newPid: Pid) returns (right: BTreeNode)
      requires Valid() && parent.Valid() && parent != this && parent.hint != hint && parent.slot != slot
      requires parent.heap != heap
      requires CanCut(Contents(), sepSlot, sep, newPid)
      requires !parent.isLeaf && CanInsert(parent.Contents(), sep, PidBytes(leftPid))
      modifies this, hint, slot, heap, parent, parent.hint, parent.slot, parent.heap
      ensures fresh(right) && fresh(right.hint) && fresh(right.slot) && fresh(right.heap)
      ensures Valid() && parent.Valid() && right.Valid()
      ensures Contents() == CutLeft(old(Contents()), sepSlot, sep, newPid)
      ensures right.Contents() == CutRight(old(Contents()), sepSlot, sep, newPid)
      ensures Inner(old(parent.Contents()))
      ensures parent.Contents() == SplitParent(old(parent.Contents()), sep, leftPid, newPid)
    {
      hide Valid, Contents, CanCut, CutLeft, CutRight, SplitParent, CanInsert, PidBytes;
      var nodeLeft := LeftHalf(sepSlot, sep, newPid);
      right := RightHalf(sepSlot, sep, newPid);
      parent.AddSeparator(sep, leftPid, newPid);
      Become(nodeLeft);
    }

    /** Takes over a finished page. */
    method Become(src: BTreeNode)
      requires Valid() && src.Valid() && src != this && src.hint != hint && src.slot != slot && src.heap != heap
      modifies this, hint, slot, heap
      ensures Valid() && Contents() == src.Contents()
    {
      hide Laid, WellFormed, View, HintsFit;
      CopyNode(src);
    }

    // ----- merging -----

    /** The parent's side of a merge: the child right of `slotId` is replaced, the slot goes. */
    method DropChild(slotId: nat, pid: Pid)
      requires Valid() && !isLeaf && slotId + 1 < count
      modifies this`spaceUsed, this`count, hint, slot, heap
      ensures Valid() && |old(Contents()).keys| == |old(Contents()).pays| && slotId + 1 < |old(Contents()).keys|
      ensures Contents() == MergeParent(old(Contents()), slotId, pid)
    {
      hide Laid, Shape, View, WellFormed, HintsFit, PidBytes, SetPay, RemoveAt;
      PageParts(Snapshot());
      PayLengthIs(Snapshot(), slotId + 1);
      WritePayload(slotId + 1, PidBytes(pid));
      RemoveSlot(slotId);
    }

    /** Both leaves' entries on the prepared page `tmp`. */
    method JoinInto(tmp: BTreeNode, right: BTreeNode)
      requires Valid() && right.Valid() && tmp.Wired() && Bare(tmp.Snapshot())
      requires tmp != this && tmp.slot != slot && tmp.heap != heap && tmp != right && tmp.slot != right.slot
      requires tmp.heap != right.heap
      requires Joins(Contents(), right.Contents()) && View(tmp.Snapshot()) == JoinedFences(Contents(), right.Contents())
      requires Fits(MergeLeaves(Contents(), right.Contents()))
      modifies tmp, tmp.hint, tmp.slot, tmp.heap
      ensures tmp.Valid() && tmp.Contents() == MergeLeaves(old(Contents()), old(right.Contents()))
    {
      hide Laid, Shape, View, WellFormed, HintsFit, Bare, Copyable, Copied, Joins, JoinedFences, MergeLeaves, Size,
           FreeSpace, FreeSpaceAfterCompaction, Appended, Shared, Bulk;
      ghost var l, r := Snapshot(), right.Snapshot();
      JoinReady(l, r);
      tmp.FillFrom(this, 0, count, right.link);
      ghost var half := tmp.Snapshot();
      JoinRest(l, r, half);
      right.CopyKeyValueRange(tmp, 0, right.count);
      JoinDone(l, r, half, tmp.Snapshot());
      tmp.MakeHint();
    }

    /** Merges the leaf `right` into this one, its left sibling at `slotId` of `parent`, if the bound on the
        merged size allows it. Inner nodes are left alone. */
    method MergeNodes(slotId: nat, parent: BTreeNode, right: BTreeNode, pid: Pid) returns (ok: bool)
      requires Valid() && parent.Valid() && right.Valid() && Separate(parent) && Separate(right)
      requires right.Separate(parent)
      requires isLeaf ==> Joins(Contents(), right.Contents())
      requires !parent.isLeaf && slotId + 1 < parent.count
      modifies this, hint, slot, heap, parent, parent.hint, parent.slot, parent.heap
      ensures Valid() && parent.Valid()
      ensures ok <==> !old(isLeaf) || BoundOf(old(Contents()), old(right.Contents())) <= PAGE_SIZE
      ensures ok && old(isLeaf) ==> Contents() == MergeLeaves(old(Contents()), old(right.Contents()))
      ensures ok && old(isLeaf) ==> parent.Contents() == WithoutChild(old(parent.Contents()), slotId, pid)
      ensures !ok || !old(isLeaf) ==> Contents() == old(Contents()) && parent.Contents() == old(parent.Contents())
    {
      hide Valid, Contents, Joins, JoinedFences, MergeLeaves, WithoutChild, BoundOf, Bare, View, Fits;
      if !isLeaf { return true; }
      var tmp, spaceUpperBound := PrepareMerge(right);
      if spaceUpperBound > PAGE_SIZE { return false; }
      JoinInto(tmp, right);
      FinishMerge(slotId, parent, tmp, pid);
      return true;
    }

    /** An empty page with the merged fences, and the bound on the merged size. */
    method PrepareMerge(right: BTreeNode) returns (tmp: BTreeNode, spaceUpperBound: int)
      requires Valid() && right.Valid() && isLeaf && Joins(Contents(), right.Contents())
      ensures fresh(tmp) && fresh(tmp.hint) && fresh(tmp.slot) && fresh(tmp.heap) && tmp.Wired()
      ensures Bare(tmp.Snapshot()) && View(tmp.Snapshot()) == JoinedFences(old(Contents()), old(right.Contents()))
      ensures spaceUpperBound == BoundOf(old(Contents()), old(right.Contents()))
      ensures spaceUpperBound <= PAGE_SIZE ==> Fits(MergeLeaves(old(Contents()), old(right.Contents())))
    {
      hide Laid, Shape, View, WellFormed, HintsFit, Joins, JoinedFences, MergeLeaves, Bare, BoundOf, Lo, Hi;
      JoinBound(Snapshot(), right.Snapshot());
      var lo := LowerFenceBytes();
      var hi := right.UpperFenceBytes();
      tmp := Fresh(isLeaf, lo, hi);
      BarePrefix(tmp.Snapshot());
      var leftGrow := (prefixLen - tmp.prefixLen) * count;
      var rightGrow := (right.prefixLen - tmp.prefixLen) * right.count;
      spaceUpperBound := spaceUsed + right.spaceUsed + (HEADER + SLOT * (count + right.count)) + leftGrow + rightGrow;
    }

    method FinishMerge(slotId: nat, parent: BTreeNode, tmp: BTreeNode, pid: Pid)
      requires Valid() && parent.Valid() && tmp.Valid() && Separate(parent) && Separate(tmp) && parent.Separate(tmp)
      requires !parent.isLeaf && slotId + 1 < parent.count
      modifies this, hint, slot, heap, parent, parent.hint, parent.slot, parent.heap
      ensures Valid() && parent.Valid()
      ensures Contents() == old(tmp.Contents())
      ensures parent.Contents() == WithoutChild(old(parent.Contents()), slotId, pid)
    {
      hide Valid, Contents;
      parent.DropChild(slotId, pid);
      Become(tmp);
    }

    ghost predicate Separate(o: BTreeNode)
    {
      o != this && o.hint != hint && o.slot != slot && o.heap != heap
    }

    // ----- choosing a separator -----

    method CommonPrefix(slotA: nat, slotB: nat) returns (i: nat)
      requires Valid() && slotA < count && slotB < count
      ensures slotA < |old(Contents()).keys| && slotB < |old(Contents()).keys|
      ensures i == CommonSuffix(old(Contents()), slotA, slotB)
    {
      hide Laid, Shape, View, WellFormed, HintsFit, Common;
      ghost var p := Snapshot();
      SlotReadable(p, slotA);
      SlotReadable(p, slotB);
      PageParts(p);
      var limit := Min(slot[slotA].keyLen, slot[slotB].keyLen);
      var a := heap[slot[slotA].offset..slot[slotA].offset + slot[slotA].keyLen];
      var b := heap[slot[slotB].offset..slot[slotB].offset + slot[slotB].keyLen];
      i := 0;
      while i < limit && a[i] == b[i]
        invariant 0 <= i <= limit
        invariant forall j | 0 <= j < i :: a[j] == b[j]
      {
        i := i + 1;
      }
      CommonUnique(a, b, i);
      CommonOfSuffixes(p, slotA, slotB, a, b);
    }

    /** The slot a leaf is cut at. */
    method BestSlot(splitOrdered: bool) returns (bestSlot: nat)
      requires Valid() && count > 1
      ensures |old(Contents()).keys| > 1 && bestSlot == Spaces.BestSlot(old(Contents()), splitOrdered)
    {
      hide Laid, Shape, View, WellFormed, HintsFit, CommonSuffix;
      ghost var n := Contents();
      SepParts(Snapshot());
      if splitOrdered { return count - 2; }
      if count <= 16 { return (count - 1) / 2; }
      var lower := count / 2 - count / 16;
      var upper := count / 2;
      var bestPrefixLen := CommonPrefix(lower, 0);
      var last := CommonPrefix(upper - 1, 0);
      if bestPrefixLen == last { return lower; }
      bestSlot := lower + 1;
      while bestSlot < upper
        invariant lower + 1 <= bestSlot <= upper
        invariant FirstChange(n, lower + 1, upper, bestPrefixLen) == FirstChange(n, bestSlot, upper, bestPrefixLen)
      {
        var here := CommonPrefix(bestSlot, 0);
        if here != bestPrefixLen { break; }
        bestSlot := bestSlot + 1;
      }
    }

    /** Where to split, and how much of which key becomes the separator. */
    method FindSeparator(splitOrdered: bool) returns (info: SepInfo)
      requires Valid() && count > (if isLeaf then 1 else 0)
      ensures WellFormed(old(Contents())) && |old(Contents()).keys| > (if old(Contents()).leaf then 1 else 0)
      ensures info == Spaces.FindSeparator(old(Contents()), splitOrdered)
    {
      hide Laid, Shape, View, WellFormed, HintsFit, CommonSuffix, Spaces.BestSlot;
      ghost var p := Snapshot();
      SepParts(p);
      if !isLeaf {
        var slotId := count / 2;
        KeyLength(p, slotId);
        return SepInfo(prefixLen + slot[slotId].keyLen, slotId, false);
      }
      var bestSlot := BestSlot(splitOrdered);
      var common := CommonPrefix(bestSlot, bestSlot + 1);
      KeyLength(p, bestSlot);
      KeyLength(p, bestSlot + 1);
      if slot[bestSlot].keyLen > common && slot[bestSlot + 1].keyLen > common + 1 {
        return SepInfo(prefixLen + common + 1, bestSlot, true);
      }
      return SepInfo(prefixLen + slot[bestSlot].keyLen, bestSlot, false);
    }

    /** The separator's bytes. */
    method GetSep(info: SepInfo) returns (sep: Bytes)
      requires Valid() && (info.slot + if info.truncated then 1 else 0) < count
      requires prefixLen <= info.len <= prefixLen + slot[info.slot + if info.truncated then 1 else 0].keyLen
      ensures SepAt(old(Contents()), info) && sep == Spaces.GetSep(old(Contents()), info)
    {
      hide Laid, Shape, View, WellFormed, HintsFit, SepAt, Spaces.GetSep;
      var s := info.slot + if info.truncated then 1 else 0;
      SepIs(Snapshot(), info);
      sep := heap[lowerFence.offset..lowerFence.offset + prefixLen] + heap[slot[s].offset..slot[s].offset + (info.len - prefixLen)];
    }
  }

  // ----- memory that a search may read -----

  /** Whatever bytes lie behind a key or behind the page. */
  method SomeBytes() returns (b: Bytes)
    ensures |b| >= 15
  {
    var rest: Bytes := *;
    b := rest + Zeros();
  }

  // ----- lemmas for the searches -----

  lemma EmptyLaid(p: Page)
    requires |p.heap| == PAGE_SIZE && p.slots == [] && p.lower == Fence(0, 0) && p.upper == Fence(0, 0)
    requires p.spaceUsed == 0 && p.dataOffset == PAGE_SIZE && p.prefixLen == 0
    ensures Laid(p) && View(p) == Node(p.leaf, [], [], [], [], p.link) && WellFormed(View(p))
  {
  }

  lemma HintReadable(count: nat, i: nat)
    requires count <= MAX_SLOTS && i < HINTS
    ensures HintSlot(count, i) == count / 17 * (i + 1) < MAX_SLOTS
  {
    MulMono(count / 17, i + 1, HINTS);
  }

  lemma HintsRead(slots: seq<Slot>, count: nat, hint: seq<int>)
    requires count <= |slots| == MAX_SLOTS && |hint| == HINTS
    requires forall j: nat | j < HINTS :: HintSlot(count, j) < MAX_SLOTS && hint[j] == slots[HintSlot(count, j)].head
    ensures HintsFit(slots[..count], hint)
  {
    var live := slots[..count];
    assert |live| == count;
    if count > 2 * HINTS {
      forall i: nat | i < HINTS ensures HintAt(live, hint, i) {
        HintInside(count, i);
        assert HintSlot(count, i) < MAX_SLOTS && hint[i] == slots[HintSlot(count, i)].head;
      }
    }
  }

  lemma HintsKept(slots: seq<Slot>, count: nat, hint: seq<int>, slotId: nat)
    requires slotId < count <= |slots| == MAX_SLOTS && |hint| == HINTS
    requires forall i: nat | i < HINTS && i < RefreshFrom(count, slotId) :: HintAt(slots[..count], hint, i)
    ensures forall j: nat | j < RefreshFrom(count, slotId) && j < HINTS :: HintSlot(count, j) < MAX_SLOTS && hint[j] == slots[HintSlot(count, j)].head
  {
    hide HintSlot, RefreshFrom;
    forall j: nat | j < RefreshFrom(count, slotId) && j < HINTS
      ensures HintSlot(count, j) < MAX_SLOTS && hint[j] == slots[HintSlot(count, j)].head
    {
      assert HintAt(slots[..count], hint, j);
    }
  }

  lemma LowerReadable(p: Page)
    requires Laid(p)
    ensures Shape(p) && p.lower.offset + p.prefixLen <= PAGE_SIZE
  {
  }

  lemma LowerStart(p: Page, m: nat)
    requires Laid(p) && m <= p.prefixLen
    ensures |p.heap| == PAGE_SIZE && p.lower.offset + m <= PAGE_SIZE && m <= |Lo(p)|
    ensures p.heap[p.lower.offset..p.lower.offset + m] == Lo(p)[..m]
  {
  }

  lemma SlotReadable(p: Page, i: nat)
    requires Laid(p) && i < |p.slots|
    ensures p.slots[i].offset + p.slots[i].keyLen + p.slots[i].payLen <= PAGE_SIZE
  {
    assert InHeap(p, p.slots[i].offset, p.slots[i].keyLen + p.slots[i].payLen);
  }

  lemma SuffixStart(p: Page, i: nat, m: nat)
    requires Laid(p) && i < |p.slots| && m <= p.slots[i].keyLen
    ensures |p.heap| == PAGE_SIZE && p.slots[i].offset + m <= PAGE_SIZE
    ensures |SuffixAt(p, i)| == p.slots[i].keyLen
    ensures p.heap[p.slots[i].offset..p.slots[i].offset + m] == SuffixAt(p, i)[..m]
  {
    SlotReadable(p, i);
  }

  lemma PayLength(p: Page, i: nat)
    requires Laid(p) && i < |p.slots|
    ensures Shape(p) && |View(p).pays[i]| == p.slots[i].payLen && |View(p).keys| == |View(p).pays| == |p.slots|
  {
    LengthsAt(p, i);
  }

  lemma SetPayKeeps(n: Node, i: nat, v: Bytes)
    requires WellFormed(n) && i < |n.keys| == |n.pays| && |v| == |n.pays[i]|
    ensures WellFormed(SetPay(n, i, v))
  {
    hide Sorted, Within;
  }

  // ----- lemmas for copying -----

  /** Entry `i` of `p` can be stored behind the last slot of `q`. */
  predicate EntryFits(p: Page, i: nat, q: Page)
    ensures EntryFits(p, i, q) ==> Shape(p) && i < |p.slots|
  {
    && Laid(p) && i < |p.slots| && |q.heap| == PAGE_SIZE && q.prefixLen <= |KeyAt(p, i)|
    && |KeyAt(p, i)| - q.prefixLen + |PayAt(p, i)| <= q.dataOffset <= PAGE_SIZE
  }

  function WithEntry(q: Page, p: Page, i: nat): Page
    requires EntryFits(p, i, q)
  {
    StoreAt(q, |q.slots|, KeyAt(p, i), PayAt(p, i))
  }

  lemma PageParts(p: Page)
    requires Laid(p)
    ensures Shape(p) && |View(p).keys| == |View(p).pays| == |p.slots|
  {
    hide Shape, RangesApart, HeadsFit, Accounted;
  }

  lemma AppendRoom(p: Page, q: Page, keys: seq<Bytes>, pays: seq<Bytes>, n: nat)
    requires Laid(p) && |keys| == |pays| && n < |keys| && Appended(p, q, keys, pays, n)
    requires Shared(p, keys) && Bulk(keys, pays, p.prefixLen) <= FreeSpace(p)
    ensures Bulk(keys[..n + 1], pays[..n + 1], p.prefixLen) <= FreeSpace(p)
  {
    hide Bulk, Laid, View, Shape, Appended, FreeSpace;
    AppendedPart(p, q, keys, pays, n);
    BulkCut(keys, pays, n + 1, p.prefixLen);
    SharedCarries(p, keys, n + 1);
    BulkLeast(keys[n + 1..], pays[n + 1..], p.prefixLen);
  }

  lemma AppendedPart(p: Page, q: Page, keys: seq<Bytes>, pays: seq<Bytes>, n: nat)
    requires Laid(p) && |keys| == |pays| && n <= |keys| && Appended(p, q, keys, pays, n)
    ensures Shape(p)
  {
    hide Bulk, View, RangesApart, HeadsFit, Accounted;
  }

  /** One round of the copy loop appends one more entry. */
  lemma CopyStep(p: Page, d: Page, q: Page, keys: seq<Bytes>, pays: seq<Bytes>, j: nat, i: nat)
    requires Shape(p) && j < |p.slots| && Shape(d) && |keys| == |pays| && i < |keys|
    requires Laid(p) && Laid(d) && keys[i] == KeyAt(p, j) && pays[i] == PayAt(p, j)
    requires Appended(d, q, keys, pays, i) && Shared(d, keys) && Bulk(keys, pays, d.prefixLen) <= FreeSpace(d)
    ensures EntryFits(p, j, q) && Appended(d, WithEntry(q, p, j), keys, pays, i + 1)
    ensures |q.slots| < MAX_SLOTS && q.prefixLen == d.prefixLen
  {
    hide Laid, View, Shape, Appended, Shared, Bulk, FreeSpace, StoreAt, RoomFor, KeyAt, PayAt;
    AppendRoom(d, q, keys, pays, i);
    AppendStep(d, q, keys, pays, i);
    StoreFits(d, q, keys, pays, i);
  }

  lemma SharedCarries(p: Page, keys: seq<Bytes>, n: nat)
    requires Shape(p) && Shared(p, keys) && n <= |keys|
    ensures Carries(keys[n..], p.prefixLen)
  {
    forall i | 0 <= i < |keys[n..]| ensures p.prefixLen <= |keys[n..][i]| { assert keys[n..][i] == keys[n + i]; }
  }

  /** There is a free slot and there are free bytes for the next entry. */
  lemma StoreFits(p: Page, q: Page, keys: seq<Bytes>, pays: seq<Bytes>, n: nat)
    requires Shape(p) && |keys| == |pays| && n < |keys| && Appended(p, q, keys, pays, n)
    requires RoomFor(q, keys[n], pays[n])
    ensures |q.slots| < MAX_SLOTS && q.prefixLen == p.prefixLen <= |keys[n]|
    ensures |keys[n]| - p.prefixLen + |pays[n]| <= q.dataOffset <= PAGE_SIZE && |q.heap| == PAGE_SIZE
  {
    hide Bulk, View, RangesApart, HeadsFit, Accounted;
  }

  /** A key is the lower fence's start and the bytes behind the slot. */
  lemma EntryParts(p: Page, i: nat)
    requires Laid(p) && i < |p.slots|
    ensures Shape(p) && |p.heap| == PAGE_SIZE && p.lower.offset + p.prefixLen <= PAGE_SIZE
    ensures var s := p.slots[i];
      && s.offset + s.keyLen + s.payLen <= PAGE_SIZE
      && KeyAt(p, i) == p.heap[p.lower.offset..p.lower.offset + p.prefixLen] + p.heap[s.offset..s.offset + s.keyLen]
      && PayAt(p, i) == p.heap[s.offset + s.keyLen..s.offset + s.keyLen + s.payLen]
  {
    hide Laid, Shape, Lo;
    LowerReadable(p);
    SlotReadable(p, i);
    LowerStart(p, p.prefixLen);
  }

  lemma EntryView(p: Page, i: nat)
    requires Laid(p) && i < |p.slots|
    ensures Shape(p) && View(p).keys[i] == KeyAt(p, i) && View(p).pays[i] == PayAt(p, i)
  {
    hide Shape, RangesApart, HeadsFit, Accounted, Lo, KeyAt, PayAt;
  }

  lemma EntryLengths(p: Page, i: nat)
    requires Laid(p) && i < |p.slots|
    ensures Shape(p) && |KeyAt(p, i)| == p.prefixLen + p.slots[i].keyLen && |PayAt(p, i)| == p.slots[i].payLen
  {
    hide Laid, Shape, KeyAt, PayAt;
    EntryParts(p, i);
  }

  /** The bytes behind a slot are the rest of the key and the payload, whatever prefix is cut. */
  lemma EntryBytes(p: Page, i: nat, cut: nat)
    requires Laid(p) && i < |p.slots|
    requires Shape(p) && p.prefixLen <= cut <= |KeyAt(p, i)|
    ensures var s := p.slots[i]; var at, mid := s.offset + cut - p.prefixLen, s.offset + s.keyLen;
      && at <= mid && mid + s.payLen <= PAGE_SIZE == |p.heap|
      && p.heap[at..mid + s.payLen] == KeyAt(p, i)[cut..] + PayAt(p, i)
      && p.heap[at..mid] == KeyAt(p, i)[cut..]
  {
    hide Laid, Shape, KeyAt, PayAt;
    EntryParts(p, i);
    EntryLengths(p, i);
    var s := p.slots[i];
    Recut(p.heap[p.lower.offset..p.lower.offset + p.prefixLen], p.heap, s.offset, s.keyLen, s.payLen,
        cut - p.prefixLen);
  }

  lemma Recut(prefix: Bytes, h: seq<Byte>, o: nat, k: nat, v: nat, d: nat)
    requires o + k + v <= |h| && d <= k
    ensures (prefix + h[o..o + k])[|prefix| + d..] == h[o + d..o + k]
    ensures h[o + d..o + k + v] == h[o + d..o + k] + h[o + k..o + k + v]
  {
  }

  lemma StoreIs(q: Page, r: Page, key: Bytes, pay: Bytes)
    requires |q.heap| == PAGE_SIZE && q.prefixLen <= |key| && |key| - q.prefixLen + |pay| <= q.dataOffset <= PAGE_SIZE
    requires var at := q.dataOffset - (|key| - q.prefixLen + |pay|);
      r == q.(heap := Splice(q.heap, at, key[q.prefixLen..] + pay), dataOffset := at,
              spaceUsed := q.spaceUsed + |key| - q.prefixLen + |pay|,
              slots := q.slots + [Slot(at, |key| - q.prefixLen, |pay|, Head(key[q.prefixLen..]))])
    ensures r == StoreAt(q, |q.slots|, key, pay)
  {
    hide Splice, Head;
  }

  // ----- lemmas for compaction -----

  lemma FencesFit(p: Page)
    requires Laid(p)
    ensures Shape(p) && |Lo(p)| + |Hi(p)| <= PAGE_SIZE - HEADER && Lo(p) == View(p).lo && Hi(p) == View(p).hi
    ensures p.leaf == View(p).leaf && p.prefixLen == Prefix(View(p))
  {
    hide Common;
  }

  /** A page with fences and nothing else, at the bottom of the heap. */
  predicate Bare(f: Page) {
    Laid(f) && View(f).keys == [] && View(f).pays == [] && f.dataOffset + f.spaceUsed == PAGE_SIZE
  }

  lemma SelfWithin(p: Page)
    requires Laid(p) && WellFormed(View(p))
    ensures Shape(p) && forall i | 0 <= i < |View(p).keys| :: Within(View(p).keys[i], Lo(p), Hi(p))
  {
    hide Within, Sorted, KeysOf, PaysOf, Lo, Hi;
  }

  /** Entries within the fences of a bare page that fit there can be copied to it. */
  lemma CopyReady(f: Page, keys: seq<Bytes>, pays: seq<Bytes>)
    requires Bare(f) && |keys| == |pays|
    requires forall i | 0 <= i < |keys| :: Within(keys[i], Lo(f), Hi(f))
    requires Fits(View(f).(keys := keys, pays := pays))
    ensures Shared(f, keys) && Bulk(keys, pays, f.prefixLen) <= FreeSpace(f)
  {
    FencesFit(f);
    forall i | 0 <= i < |keys| ensures f.prefixLen <= |keys[i]| && keys[i][..f.prefixLen] == Lo(f)[..f.prefixLen] {
      KeyCarries(View(f), keys[i]);
    }
    hide Bulk, Within, RangesApart, HeadsFit, Common;
    BareFree(f);
  }

  lemma BareFree(f: Page)
    requires Bare(f)
    ensures Shape(f) && FreeSpace(f) == PAGE_SIZE - HEADER - |Lo(f)| - |Hi(f)|
  {
    hide RangesApart, HeadsFit, Common, KeysOf, PaysOf;
    assert Used(View(f)) == |Lo(f)| + |Hi(f)|;
    assert |f.slots| == 0;
  }

  /** Entries of `src` that may be copied to a node with the fences of `dst`. */
  predicate Copyable(dst: Node, src: Node, i: nat, n: nat) {
    && |src.keys| == |src.pays| && i + n <= |src.keys|
    && (forall k | i <= k < i + n :: Within(src.keys[k], dst.lo, dst.hi))
    && Fits(dst.(keys := src.keys[i..i + n], pays := src.pays[i..i + n]))
  }

  function Copied(dst: Node, src: Node, i: nat, n: nat, link: Pid): Node
    requires |src.keys| == |src.pays| && i + n <= |src.keys|
  {
    dst.(keys := src.keys[i..i + n], pays := src.pays[i..i + n], link := link)
  }

  lemma Slices(f: Page, p: Page, i: nat, n: nat) returns (keys: seq<Bytes>, pays: seq<Bytes>)
    requires Laid(f) && Laid(p) && i + n <= |p.slots| && Copyable(View(f), View(p), i, n)
    ensures Shape(f) && Shape(p) && |View(p).keys| == |View(p).pays| == |p.slots|
    ensures keys == View(p).keys[i..i + n] && pays == View(p).pays[i..i + n]
    ensures |keys| == |pays| == n && forall k | 0 <= k < |keys| :: Within(keys[k], Lo(f), Hi(f))
    ensures Fits(View(f).(keys := keys, pays := pays))
  {
    PageParts(f);
    PageParts(p);
    FencesFit(f);
    keys, pays := View(p).keys[i..i + n], View(p).pays[i..i + n];
    hide Laid, View, Shape, Fits, Within, Lo, Hi;
  }

  lemma BareParts(f: Page)
    requires Bare(f)
    ensures Laid(f) && Shape(f) && |f.slots| == 0
  {
    hide RangesApart, HeadsFit, Accounted;
    assert |View(f).keys| == |f.slots|;
  }

  /** A valid page can be copied whole between its own fences. */
  lemma CopyWhole(p: Page)
    requires Laid(p) && WellFormed(View(p))
    ensures Shape(p) && |View(p).keys| == |View(p).pays| == |p.slots|
    ensures var bare := Node(p.leaf, Lo(p), Hi(p), [], [], NO_NEIGHBOUR);
      Copyable(bare, View(p), 0, |p.slots|) && Copied(bare, View(p), 0, |p.slots|, p.link) == View(p)
  {
    FencesFit(p);
    FreeIsRoom(p);
    SelfWithin(p);
    PageParts(p);
    ghost var n := View(p);
    LinkOf(p);
    hide Laid, View, Shape, Within, Size, WellFormed, Lo, Hi;
    assert n.keys[0..|p.slots|] == n.keys && n.pays[0..|p.slots|] == n.pays;
    SameSize(n, Node(p.leaf, Lo(p), Hi(p), n.keys, n.pays, NO_NEIGHBOUR));
  }

  lemma LinkOf(p: Page)
    requires Shape(p)
    ensures View(p).link == p.link && View(p).leaf == p.leaf
  {
    hide Shape;
  }

  lemma CopyDone(f: Page, q: Page, keys: seq<Bytes>, pays: seq<Bytes>, link: Pid)
    requires Bare(f) && |keys| == |pays| && Shape(f) && Appended(f, q, keys, pays, |keys|)
    ensures var r := q.(link := link);
      Laid(r) && View(r) == View(f).(keys := keys, pays := pays, link := link)
          && FreeSpace(r) == FreeSpaceAfterCompaction(r)
  {
    hide Bulk, RangesApart, HeadsFit, Common, Lo, Hi, KeysOf, PaysOf;
    assert [] + keys[..|keys|] == keys && [] + pays[..|pays|] == pays;
    Relink(q, link);
  }

  lemma SameSize(a: Node, b: Node)
    requires |a.keys| == |a.pays| && a.keys == b.keys && a.pays == b.pays && a.lo == b.lo && a.hi == b.hi
    ensures Size(a) == Size(b)
  {
  }

  lemma RelinkShape(q: Page, link: Pid)
    requires Shape(q)
    ensures Shape(q.(link := link)) && Lo(q.(link := link)) == Lo(q) && Hi(q.(link := link)) == Hi(q)
  {
    var r := q.(link := link);
    assert forall o, l :: InHeap(r, o, l) <==> InHeap(q, o, l);
    hide InHeap;
  }

  lemma RelinkSlots(q: Page, link: Pid, i: nat)
    requires Shape(q) && Shape(q.(link := link)) && i < |q.slots|
    ensures var r := q.(link := link);
      SuffixAt(r, i) == SuffixAt(q, i) && KeyAt(r, i) == KeyAt(q, i) && PayAt(r, i) == PayAt(q, i)
  {
    hide InHeap;
    RelinkShape(q, link);
  }

  lemma Relink(q: Page, link: Pid)
    requires Laid(q)
    ensures Laid(q.(link := link)) && View(q.(link := link)) == View(q).(link := link)
  {
    hide Shape, RangesApart, SuffixAt, KeyAt, PayAt, Lo, Hi, Head, Common, Bulk;
    var r := q.(link := link);
    RelinkApart(q, link);
    RelinkShape(q, link);
    forall i | 0 <= i < |q.slots| ensures SuffixAt(r, i) == SuffixAt(q, i) && KeyAt(r, i) == KeyAt(q, i)
        && PayAt(r, i) == PayAt(q, i) {
      RelinkSlots(q, link, i);
    }
    assert View(r).keys == View(q).keys && View(r).pays == View(q).pays;
    hide KeysOf, PaysOf;
    SameSize(View(r), View(q));
  }

  lemma RelinkApart(q: Page, link: Pid)
    requires RangesApart(q)
    ensures RangesApart(q.(link := link))
  {
    var r := q.(link := link);
    assert forall i | 0 <= i < |q.slots| :: FencesApart(r, i) <==> FencesApart(q, i);
    forall i, j | 0 <= i < j < |r.slots| ensures SlotsApart(r, i, j) { assert SlotsApart(q, i, j); }
  }

  // ----- lemmas for inserting -----

  /** A fresh key within the fences that can be searched for, an entry of the right kind, and room for it. */
  predicate CanInsert(n: Node, key: Bytes, payload: Bytes) {
    && WellFormed(n) && Searchable(n, key) && key != [] && Within(key, n.lo, n.hi) && key !in n.keys
        && (!n.leaf ==> |payload| == 8)
    && HasSpaceFor(n, |key|, |payload|)
  }

  lemma InsertReady(p: Page, key: Bytes, payload: Bytes)
    requires Laid(p) && WellFormed(View(p)) && CanInsert(View(p), key, payload)
    requires SLOT + |key| - p.prefixLen + |payload| <= FreeSpace(p)
    ensures Shape(p) && RoomFor(p, key, payload) && key[..p.prefixLen] == Lo(p)[..p.prefixLen] && |p.heap| == PAGE_SIZE
    ensures |p.slots| < MAX_SLOTS && Sorted(View(p).keys) && |View(p).keys| == |View(p).pays| == |p.slots|
    ensures var i := Nodes.LowerBound(View(p).keys, key);
      && i <= |p.slots| && Laid(StoreAt(p, i, key, payload))
      && View(StoreAt(p, i, key, payload)) == InsertEntry(View(p), key, payload)
      && WellFormed(InsertEntry(View(p), key, payload))
  {
    hide RangesApart, HeadsFit, Accounted, Shape, KeysOf, PaysOf, Sorted, Less, Size, Lo, Hi, StoreAt;
    FencesFit(p);
    PageParts(p);
    ShapeFacts(p);
    SortedView(p);
    KeyCarries(View(p), key);
    InsertWellFormed(View(p), key, payload);
    StoreLaid(p, Nodes.LowerBound(View(p).keys, key), key, payload);
  }

  lemma Opened(a: seq<Slot>, b: seq<Slot>, c: seq<Slot>, n: nat, i: nat, s: Slot)
    requires |a| == |b| == MAX_SLOTS && i <= n < MAX_SLOTS && c == b[i := s]
    requires forall k | 0 <= k <= i :: b[k] == a[k]
    requires forall k | i < k <= n :: b[k] == a[k - 1]
    ensures c[..n + 1] == a[..n][..i] + [s] + a[..n][i..]
  {
  }

  lemma StoredAt(p: Page, r: Page, i: nat, key: Bytes, pay: Bytes)
    requires |p.heap| == PAGE_SIZE && i <= |p.slots| && p.prefixLen <= |key|
    requires |key| - p.prefixLen + |pay| <= p.dataOffset <= PAGE_SIZE
    requires var at := p.dataOffset - (|key| - p.prefixLen + |pay|);
      r == p.(heap := Splice(p.heap, at, key[p.prefixLen..] + pay), dataOffset := at,
              spaceUsed := p.spaceUsed + |key| - p.prefixLen + |pay|,
              slots := p.slots[..i] + [Slot(at, |key| - p.prefixLen, |pay|, Head(key[p.prefixLen..]))] + p.slots[i..])
    ensures r == StoreAt(p, i, key, pay)
  {
    hide Splice, Head;
  }

  lemma InsertDone(p: Page, hint: seq<int>, key: Bytes, payload: Bytes)
    requires Laid(p) && Sorted(View(p).keys) && HintsFit(p.slots, hint)
    ensures Shape(p) && |View(p).keys| == |p.slots|
    ensures var i := Nodes.LowerBound(View(p).keys, key);
      forall s, j: nat | j < HINTS && j < RefreshFrom(|p.slots| + 1, i) ::
          HintAt(p.slots[..i] + [s] + p.slots[i..], hint, j)
  {
    hide Laid, Nodes.LowerBound, RefreshFrom, HintAt, Sorted, HintSlot;
    PageParts(p);
    var i := Nodes.LowerBound(View(p).keys, key);
    forall s, j: nat | j < HINTS && j < RefreshFrom(|p.slots| + 1, i) ensures HintAt(p.slots[..i] + [s] + p.slots[i..],
        hint, j) {
      RefreshEnough(p.slots, hint, i, s, j);
    }
  }

  // ----- lemmas for splitting -----

  lemma InnerPage(p: Page)
    requires Laid(p) && WellFormed(View(p)) && !p.leaf
    ensures Shape(p) && Inner(View(p)) && View(p).link == p.link && |View(p).keys| == |p.slots| && Sorted(View(p).keys)
  {
    hide Laid, Sorted, Within;
    PageParts(p);
  }

  lemma ChildBytes(p: Page, i: nat)
    requires Laid(p) && WellFormed(View(p)) && !p.leaf && i < |p.slots|
    ensures Shape(p) && Inner(View(p)) && |View(p).keys| == |p.slots| == |View(p).pays|
    ensures var s := p.slots[i];
      && s.offset + s.keyLen + s.payLen <= PAGE_SIZE == |p.heap| && s.payLen == 8
      && p.heap[s.offset + s.keyLen..s.offset + s.keyLen + s.payLen] == View(p).pays[i]
  {
    InnerPage(p);
    PageParts(p);
    EntryParts(p, i);
    EntryView(p, i);
    EntryLengths(p, i);
    hide Laid, Shape, View, KeyAt, PayAt, Sorted, Within;
  }

  lemma PayLengthIs(p: Page, i: nat)
    requires Laid(p) && WellFormed(View(p)) && !p.leaf && i < |p.slots|
    ensures p.slots[i].payLen == 8
  {
    ChildBytes(p, i);
  }

  lemma RelinkHints(p: Page, link: Pid)
    requires Laid(p) && WellFormed(View(p)) && !p.leaf
    ensures Shape(p) && WellFormed(View(p).(link := link))
  {
    hide Laid, Sorted, Within;
    PageParts(p);
  }

  lemma SearchableSame(a: Node, b: Node, key: Bytes)
    requires a.lo == b.lo && a.hi == b.hi && a.keys == b.keys
    ensures Searchable(a, key) <==> Searchable(b, key)
  {
    hide Clear, Common;
    assert forall i | 0 <= i < |a.keys| :: SlotClear(a, key, i) <==> SlotClear(b, key, i);
  }

  lemma SeparatorReady(p: Node, sep: Bytes, left: Pid, right: Pid)
    requires Inner(p) && CanInsert(p, sep, PidBytes(left))
    ensures Searchable(p, sep)
    ensures var j := Nodes.LowerBound(p.keys, sep);
      && Inner(SetKid(p, j, right)) && CanInsert(SetKid(p, j, right), sep, PidBytes(left))
      && SplitParent(p, sep, left, right) == InsertEntry(SetKid(p, j, right), sep, PidBytes(left))
  {
    hide Less, Within, Bulk, Common, Sorted, Searchable;
    var j := Nodes.LowerBound(p.keys, sep);
    SetKidWellFormed(p, j, right);
    SearchableSame(p, SetKid(p, j, right), sep);
    if j < |p.keys| { SetPaySize(p, j, PidBytes(right)); }
  }

  /** A good cut whose separator is no longer than the key before it, and whose left half fits. */
  predicate CanCut(n: Node, slot: nat, sep: Bytes, right: Pid)
    ensures CanCut(n, slot, sep, right) ==> WellFormed(n) && slot < |n.keys|
  {
    GoodCut(n, slot, sep) && |sep| <= |n.keys[slot]| && Fits(SplitLeft(n, slot, sep, right))
  }

  function CutLeft(n: Node, slot: nat, sep: Bytes, right: Pid): Node
    requires CanCut(n, slot, sep, right)
  {
    SplitLeft(n, slot, sep, right)
  }

  function CutRight(n: Node, slot: nat, sep: Bytes, right: Pid): Node
    requires CanCut(n, slot, sep, right)
  {
    SplitRight(n, slot, sep)
  }

  /** What each half gets. */
  lemma SplitReady(p: Page, slot: nat, sep: Bytes, r: Pid)
    requires Laid(p) && CanCut(View(p), slot, sep, r)
    ensures Shape(p) && slot < |p.slots| == |View(p).keys| == |View(p).pays| && p.link == View(p).link
    ensures p.leaf == View(p).leaf
    ensures Lo(p) == View(p).lo && Hi(p) == View(p).hi
    ensures |Lo(p)| + |sep| <= PAGE_SIZE - HEADER && |sep| + |Hi(p)| <= PAGE_SIZE - HEADER
    ensures var n := View(p); var c := Kept(n, slot); var link := if n.leaf then r else Kid(n, slot);
      && Copyable(Node(n.leaf, n.lo, sep, [], [], NO_NEIGHBOUR), n, 0, c)
      && Copied(Node(n.leaf, n.lo, sep, [], [], NO_NEIGHBOUR), n, 0, c, link) == SplitLeft(n, slot, sep, r)
      && Copyable(Node(n.leaf, sep, n.hi, [], [], NO_NEIGHBOUR), n, slot + 1, |n.keys| - slot - 1)
      && Copied(Node(n.leaf, sep, n.hi, [], [], NO_NEIGHBOUR), n, slot + 1, |n.keys| - slot - 1,
          n.link) == SplitRight(n, slot, sep)
      && WellFormed(SplitLeft(n, slot, sep, r)) && WellFormed(SplitRight(n, slot, sep))
  {
    hide Laid, Shape, View, Lo, Hi, GoodCut, SplitLeft, SplitRight, Copyable, Copied, Size, WellFormed, Kid,
         FreeSpace, FreeSpaceAfterCompaction;
    FreeIsRoom(p);
    FencesFit(p);
    PageParts(p);
    LinkOf(p);
    SplitFactsOf(View(p), slot, sep);
    HalvesCopy(View(p), slot, sep, r);
  }

  lemma HalvesCopy(n: Node, slot: nat, sep: Bytes, r: Pid)
    requires GoodCut(n, slot, sep) && |sep| <= |n.keys[slot]| && Fits(n) && Fits(SplitLeft(n, slot, sep, r))
    ensures |n.lo| + |sep| <= PAGE_SIZE - HEADER && |sep| + |n.hi| <= PAGE_SIZE - HEADER
    ensures var c := Kept(n, slot); var link := if n.leaf then r else Kid(n, slot);
      && Copyable(Node(n.leaf, n.lo, sep, [], [], NO_NEIGHBOUR), n, 0, c)
      && Copied(Node(n.leaf, n.lo, sep, [], [], NO_NEIGHBOUR), n, 0, c, link) == SplitLeft(n, slot, sep, r)
      && Copyable(Node(n.leaf, sep, n.hi, [], [], NO_NEIGHBOUR), n, slot + 1, |n.keys| - slot - 1)
      && Copied(Node(n.leaf, sep, n.hi, [], [], NO_NEIGHBOUR), n, slot + 1, |n.keys| - slot - 1,
          n.link) == SplitRight(n, slot, sep)
      && WellFormed(SplitLeft(n, slot, sep, r)) && WellFormed(SplitRight(n, slot, sep))
  {
    hide GoodCut, Less, Size, Within, Sorted, Kid;
    SplitFactsOf(n, slot, sep);
    SplitWellFormed(n, slot, sep, r);
    RightFits(n, slot, sep);
    var l, rt := SplitLeft(n, slot, sep, r), SplitRight(n, slot, sep);
    FittingFences(l);
    FittingFences(rt);
    var c := Kept(n, slot);
    assert n.keys[0..c] == l.keys && n.pays[0..c] == l.pays;
    assert n.keys[slot + 1..slot + 1 + (|n.keys| - slot - 1)] == rt.keys;
    assert n.pays[slot + 1..slot + 1 + (|n.keys| - slot - 1)] == rt.pays;
    SameSize(l, Node(n.leaf, n.lo, sep, l.keys, l.pays, NO_NEIGHBOUR));
    SameSize(rt, Node(n.leaf, sep, n.hi, rt.keys, rt.pays, NO_NEIGHBOUR));
    forall k | 0 <= k < c ensures Within(n.keys[k], n.lo, sep) { assert l.keys[k] == n.keys[k]; }
    forall k | slot + 1 <= k < |n.keys|
      ensures Within(n.keys[k], sep, n.hi)
    {
      assert rt.keys[k - slot - 1] == n.keys[k];
    }
  }

  lemma FittingFences(n: Node)
    requires WellFormed(n) && Fits(n)
    ensures |n.lo| + |n.hi| <= PAGE_SIZE - HEADER
  {
    hide Less, Within, Sorted, Common;
    PrefixCarried(n);
    BulkLeast(n.keys, n.pays, Prefix(n));
  }

  // ----- lemmas for merging -----

  /** `r` is the right neighbour of the leaf `l`; fences have legal lengths. */
  predicate Joins(l: Node, r: Node) {
    && WellFormed(l) && WellFormed(r) && l.leaf && r.leaf && l.hi != [] && r.lo == l.hi
    && |l.lo| + |r.hi| <= PAGE_SIZE - HEADER
  }

  function JoinedFences(l: Node, r: Node): Node {
    Node(l.leaf, l.lo, r.hi, [], [], NO_NEIGHBOUR)
  }

  /** `SpaceUpperBound` where it makes sense. */
  function BoundOf(l: Node, r: Node): int {
    if |l.keys| == |l.pays| && |r.keys| == |r.pays| then SpaceUpperBound(l, r) else 0
  }

  function WithoutChild(p: Node, slotId: nat, pid: Pid): Node {
    if |p.keys| == |p.pays| && slotId + 1 < |p.keys| then MergeParent(p, slotId, pid) else p
  }

  /** The merged fences share no more than either leaf's: the growth terms of the bound do not wrap. */
  lemma PrefixShrinks(l: Node, r: Node)
    requires Joins(l, r)
    ensures Common(l.lo, r.hi) <= Prefix(l) && Common(l.lo, r.hi) <= Prefix(r)
  {
    hide Sorted, Within;
    if l.lo != [] && r.hi != [] {
      Trichotomy(l.hi, r.hi);
      BetweenCarriesPrefix(l.lo, l.hi, r.hi);
      var c := l.lo[..Common(l.lo, r.hi)];
      CommonAtLeast(l.lo, l.hi, c);
      CommonAtLeast(l.hi, r.hi, c);
    }
  }

  lemma JoinBound(l: Page, r: Page)
    requires Laid(l) && Laid(r) && Joins(View(l), View(r))
    ensures Shape(l) && Shape(r) && |Lo(l)| + |Hi(r)| <= PAGE_SIZE - HEADER
    ensures JoinedFences(View(l), View(r)) == Node(l.leaf, Lo(l), Hi(r), [], [], NO_NEIGHBOUR)
    ensures var p := Common(Lo(l), Hi(r));
      && BoundOf(View(l), View(r)) == l.spaceUsed + r.spaceUsed + (HEADER + SLOT * (|l.slots| + |r.slots|))
           + (l.prefixLen - p) * |l.slots| + (r.prefixLen - p) * |r.slots|
      && p <= l.prefixLen && p <= r.prefixLen
    ensures BoundOf(View(l), View(r)) <= PAGE_SIZE ==> Fits(MergeLeaves(View(l), View(r)))
  {
    hide RangesApart, HeadsFit, Common, Bulk, Lo, Hi, KeysOf, PaysOf, Shape, WellFormed, Size;
    FencesFit(l);
    FencesFit(r);
    PrefixShrinks(View(l), View(r));
    MergeBound(View(l), View(r));
  }

  lemma BarePrefix(f: Page)
    requires Bare(f)
    ensures Shape(f) && f.prefixLen == Common(View(f).lo, View(f).hi)
  {
    BareParts(f);
    FencesFit(f);
  }

  lemma JoinedWithin(l: Node, r: Node)
    requires Joins(l, r)
    ensures forall k | 0 <= k < |l.keys| :: Within(l.keys[k], l.lo, r.hi)
    ensures forall k | 0 <= k < |r.keys| :: Within(r.keys[k], l.lo, r.hi)
    ensures WellFormed(MergeLeaves(l, r))
  {
    hide Less, Sorted;
    MergeWellFormed(l, r);
    var m := MergeLeaves(l, r);
    forall k | 0 <= k < |l.keys| ensures Within(l.keys[k], l.lo, r.hi) { assert m.keys[k] == l.keys[k]; }
    forall k | 0 <= k < |r.keys| ensures Within(r.keys[k], l.lo, r.hi) { assert m.keys[|l.keys| + k] == r.keys[k]; }
  }

  lemma JoinSizes(l: Node, r: Node)
    requires Joins(l, r) && Fits(MergeLeaves(l, r))
    ensures var p := Common(l.lo, r.hi);
      && Carries(r.keys, p) && Bulk(r.keys, r.pays, p) >= 0
      && Size(Node(l.leaf, l.lo, r.hi, l.keys, l.pays, r.link)) == Size(MergeLeaves(l, r)) - Bulk(r.keys, r.pays, p)
  {
    hide Less, Sorted, Common, Within;
    JoinedWithin(l, r);
    var p := Common(l.lo, r.hi);
    var f := JoinedFences(l, r);
    forall k | 0 <= k < |r.keys| ensures p <= |r.keys[k]| { KeyCarries(f, r.keys[k]); }
    BulkConcat(l.keys, l.pays, r.keys, r.pays, p);
    BulkLeast(r.keys, r.pays, p);
  }

  lemma JoinReady(l: Page, r: Page)
    requires Laid(l) && Laid(r) && Joins(View(l), View(r)) && Fits(MergeLeaves(View(l), View(r)))
    ensures Shape(l) && Shape(r) && r.link == View(r).link
    ensures |View(l).keys| == |View(l).pays| == |l.slots| && |View(r).keys| == |View(r).pays| == |r.slots|
    ensures Copyable(JoinedFences(View(l), View(r)), View(l), 0, |l.slots|)
  {
    hide Laid, View, Size, WellFormed, Within;
    PageParts(l);
    PageParts(r);
    LinkOf(r);
    JoinSizes(View(l), View(r));
    JoinedWithin(View(l), View(r));
    var n := View(l);
    assert n.keys[0..|l.slots|] == n.keys && n.pays[0..|l.slots|] == n.pays;
    SameSize(Node(n.leaf, n.lo, View(r).hi, n.keys, n.pays, View(r).link),
        JoinedFences(n, View(r)).(keys := n.keys, pays := n.pays));
  }

  /** After the left leaf's entries, there is room for the right leaf's. */
  lemma JoinRest(l: Page, r: Page, half: Page)
    requires Laid(l) && Laid(r) && Joins(View(l), View(r)) && Fits(MergeLeaves(View(l), View(r)))
    requires |View(l).keys| == |View(l).pays| == |l.slots|
    requires Laid(half) && View(half) == Copied(JoinedFences(View(l), View(r)), View(l), 0, |l.slots|, r.link)
    requires FreeSpace(half) == FreeSpaceAfterCompaction(half)
    ensures Shape(half) && |View(r).keys| == |View(r).pays| == |r.slots|
    ensures View(r).keys[0..|r.slots|] == View(r).keys && View(r).pays[0..|r.slots|] == View(r).pays
    ensures Shared(half, View(r).keys) && Bulk(View(r).keys, View(r).pays, half.prefixLen) <= FreeSpace(half)
  {
    hide Laid, View, Size, WellFormed, Bulk, FreeSpace, FreeSpaceAfterCompaction, Common, Within;
    PageParts(l);
    PageParts(r);
    PageParts(half);
    LinkOf(r);
    FencesFit(half);
    FreeIsRoom(half);
    JoinSizes(View(l), View(r));
    JoinedWithin(View(l), View(r));
    var n := View(l);
    assert n.keys[0..|l.slots|] == n.keys && n.pays[0..|l.slots|] == n.pays;
    forall k | 0 <= k < |View(r).keys| ensures half.prefixLen <= |View(r).keys[k]|
        && View(r).keys[k][..half.prefixLen] == Lo(half)[..half.prefixLen] {
      KeyCarries(View(half), View(r).keys[k]);
    }
  }

  lemma JoinDone(l: Page, r: Page, half: Page, q: Page)
    requires Laid(l) && Laid(r) && Joins(View(l), View(r))
    requires |View(l).keys| == |View(l).pays| == |l.slots| && |View(r).keys| == |View(r).pays| == |r.slots|
    requires Laid(half) && View(half) == Copied(JoinedFences(View(l), View(r)), View(l), 0, |l.slots|, r.link)
    requires Shape(half) && Appended(half, q, View(r).keys, View(r).pays, |r.slots|)
    ensures Laid(q) && View(q) == MergeLeaves(View(l), View(r)) && WellFormed(View(q))
  {
    hide Laid, View, WellFormed, Bulk, Within, Sorted, Size, FreeSpace;
    PageParts(l);
    PageParts(r);
    LinkOf(r);
    JoinedWithin(View(l), View(r));
    var n, o := View(l), View(r);
    assert n.keys[0..|l.slots|] == n.keys && n.pays[0..|l.slots|] == n.pays;
    assert o.keys[..|r.slots|] == o.keys && o.pays[..|r.slots|] == o.pays;
  }

  // ----- lemmas for separators -----

  lemma CommonOfSuffixes(p: Page, i: nat, j: nat, a: Bytes, b: Bytes)
    requires Laid(p) && i < |p.slots| && j < |p.slots|
    requires Shape(p) && a == SuffixAt(p, i) && b == SuffixAt(p, j)
    ensures i < |View(p).keys| && j < |View(p).keys| && CommonSuffix(View(p), i, j) == Common(a, b)
  {
    hide Laid, Common, View, Lo, Shape, SuffixAt;
    PageParts(p);
    FencesFit(p);
    EntryView(p, i);
    EntryView(p, j);
    ShapeFacts(p);
    CutPrefix(Lo(p)[..p.prefixLen], a, b);
  }

  lemma SepParts(p: Page)
    requires Laid(p) && WellFormed(View(p))
    ensures Shape(p) && |View(p).keys| == |p.slots| && View(p).leaf == p.leaf && p.prefixLen == Prefix(View(p))
  {
    PageParts(p);
    FencesFit(p);
  }

  lemma KeyLength(p: Page, i: nat)
    requires Laid(p) && i < |p.slots|
    ensures Shape(p) && |View(p).keys[i]| == p.prefixLen + p.slots[i].keyLen
  {
    LengthsAt(p, i);
  }

  predicate SepAt(n: Node, info: SepInfo) {
    && WellFormed(n)
    && var s := info.slot + if info.truncated then 1 else 0;
       s < |n.keys| && Prefix(n) <= info.len <= |n.keys[s]|
  }

  lemma SepIs(p: Page, info: SepInfo)
    requires Laid(p) && WellFormed(View(p))
    requires var s := info.slot + if info.truncated then 1 else 0;
      s < |p.slots| && p.prefixLen <= info.len <= p.prefixLen + p.slots[s].keyLen
    ensures Shape(p) && |p.heap| == PAGE_SIZE && p.lower.offset + p.prefixLen <= PAGE_SIZE && SepAt(View(p), info)
    ensures var s := p.slots[info.slot + if info.truncated then 1 else 0];
      && s.offset + (info.len - p.prefixLen) <= PAGE_SIZE
      && Spaces.GetSep(View(p),
          info) == p.heap[p.lower.offset..p.lower.offset + p.prefixLen] + p.heap[s.offset..s.offset + (info.len - p.prefixLen)]
  {
    hide Laid, View, Lo, SuffixAt, Shape, WellFormed, Prefix;
    var s := info.slot + if info.truncated then 1 else 0;
    SepParts(p);
    LowerStart(p, p.prefixLen);
    FencesFit(p);
    SuffixStart(p, s, info.len - p.prefixLen);
    SepBytes(p, s, info.len);
  }

  lemma SepBytes(p: Page, s: nat, len: nat)
    requires Laid(p) && s < |p.slots| && p.prefixLen <= len <= p.prefixLen + p.slots[s].keyLen
    ensures Shape(p) && |View(p).keys[s]| >= len && p.prefixLen <= |Lo(p)| && |SuffixAt(p, s)| == p.slots[s].keyLen
    ensures View(p).keys[s][p.prefixLen..len] == SuffixAt(p, s)[..len - p.prefixLen]
  {
    EntryView(p, s);
    SuffixStart(p, s, 0);
    hide Laid, View, Lo, SuffixAt;
    ShapeFacts(p);
  }
}
