/** The bytes of a slotted page: fences and entries lie in the heap, which grows downwards towards the
    slots. `View` is the node they stand for. */
module Layouts {
  import opened Keys
  import opened Nodes
  import opened Spaces

  const MAX_SLOTS := 399

  datatype Slot = Slot(offset: nat, keyLen: nat, payLen: nat, head: int)
  datatype Fence = Fence(offset: nat, len: nat)

  /** The fields of a page; `slots` are the live ones. */
  datatype Page = Page(leaf: bool, link: Pid, lower: Fence, upper: Fence, spaceUsed: int, dataOffset: int,
                       prefixLen: nat, slots: seq<Slot>, heap: seq<Byte>)

  /** A non-empty range lies in the used part of the heap. */
  predicate InHeap(p: Page, offset: nat, len: nat) {
    offset + len <= PAGE_SIZE && (len > 0 ==> p.dataOffset <= offset)
  }

  /** Everything in bounds, and the slots end before the heap begins. */
  predicate Shape(p: Page) {
    && |p.heap| == PAGE_SIZE
    && HEADER + SLOT * |p.slots| <= p.dataOffset <= PAGE_SIZE
    && InHeap(p, p.lower.offset, p.lower.len) && InHeap(p, p.upper.offset, p.upper.len)
    && p.prefixLen <= p.lower.len
    && forall i | 0 <= i < |p.slots| :: InHeap(p, p.slots[i].offset, p.slots[i].keyLen + p.slots[i].payLen)
  }

  function Lo(p: Page): Bytes
    requires Shape(p)
  {
    p.heap[p.lower.offset..p.lower.offset + p.lower.len]
  }

  function Hi(p: Page): Bytes
    requires Shape(p)
  {
    p.heap[p.upper.offset..p.upper.offset + p.upper.len]
  }

  function SuffixAt(p: Page, i: nat): Bytes
    requires Shape(p) && i < |p.slots|
  {
    p.heap[p.slots[i].offset..p.slots[i].offset + p.slots[i].keyLen]
  }

  function PayAt(p: Page, i: nat): Bytes
    requires Shape(p) && i < |p.slots|
  {
    var s := p.slots[i];
    p.heap[s.offset + s.keyLen..s.offset + s.keyLen + s.payLen]
  }

  function KeyAt(p: Page, i: nat): Bytes
    requires Shape(p) && i < |p.slots|
  {
    Lo(p)[..p.prefixLen] + SuffixAt(p, i)
  }

  function KeysOf(p: Page, n: nat): (r: seq<Bytes>)
    requires Shape(p) && n <= |p.slots|
    ensures |r| == n && forall i | 0 <= i < n :: r[i] == KeyAt(p, i)
  {
    if n == 0 then [] else KeysOf(p, n - 1) + [KeyAt(p, n - 1)]
  }

  function PaysOf(p: Page, n: nat): (r: seq<Bytes>)
    requires Shape(p) && n <= |p.slots|
    ensures |r| == n && forall i | 0 <= i < n :: r[i] == PayAt(p, i)
  {
    if n == 0 then [] else PaysOf(p, n - 1) + [PayAt(p, n - 1)]
  }

  /** The node a page stands for. */
  function View(p: Page): (n: Node)
    requires Shape(p)
    ensures |n.keys| == |n.pays| == |p.slots|
  {
    Node(p.leaf, Lo(p), Hi(p), KeysOf(p, |p.slots|), PaysOf(p, |p.slots|), p.link)
  }

  predicate ApartRanges(a: nat, alen: nat, b: nat, blen: nat) {
    alen == 0 || blen == 0 || a + alen <= b || b + blen <= a
  }

  predicate SlotsApart(p: Page, i: nat, j: nat)
    requires i < |p.slots| && j < |p.slots|
  {
    ApartRanges(p.slots[i].offset, p.slots[i].keyLen + p.slots[i].payLen, p.slots[j].offset,
        p.slots[j].keyLen + p.slots[j].payLen)
  }

  predicate FencesApart(p: Page, i: nat)
    requires i < |p.slots|
  {
    && ApartRanges(p.lower.offset, p.lower.len, p.slots[i].offset, p.slots[i].keyLen + p.slots[i].payLen)
    && ApartRanges(p.upper.offset, p.upper.len, p.slots[i].offset, p.slots[i].keyLen + p.slots[i].payLen)
  }

  /** Live byte ranges are disjoint. */
  predicate RangesApart(p: Page) {
    && ApartRanges(p.lower.offset, p.lower.len, p.upper.offset, p.upper.len)
    && (forall i | 0 <= i < |p.slots| :: FencesApart(p, i))
    && forall i, j {:trigger SlotsApart(p, i, j)} | 0 <= i < j < |p.slots| :: SlotsApart(p, i, j)
  }

  /** The accounting is exact: heads belong to their keys, the prefix is the one the fences share, and
      `spaceUsed` is what fences, keys and payloads occupy. */
  predicate Laid(p: Page) {
    Shape(p) && RangesApart(p) && HeadsFit(p) && Accounted(p)
  }

  predicate HeadsFit(p: Page)
    requires Shape(p)
  {
    forall i | 0 <= i < |p.slots| :: p.slots[i].head == Head(SuffixAt(p, i))
  }

  predicate Accounted(p: Page)
    requires Shape(p)
  {
    && p.prefixLen == Common(Lo(p), Hi(p))
    && p.spaceUsed == Used(View(p)) && p.dataOffset + p.spaceUsed <= PAGE_SIZE
  }

  function FreeSpace(p: Page): int {
    p.dataOffset - (HEADER + SLOT * |p.slots|)
  }

  function FreeSpaceAfterCompaction(p: Page): int {
    PAGE_SIZE - (HEADER + SLOT * |p.slots|) - p.spaceUsed
  }

  /** The free space the page reports is the room of the node, and at least what is free right now. */
  lemma FreeIsRoom(p: Page)
    requires Laid(p)
    ensures FreeSpaceAfterCompaction(p) == Room(View(p)) && FreeSpace(p) <= Room(View(p)) && Fits(View(p))
  {
  }

  // ----- writing -----

  function Splice(heap: seq<Byte>, at: nat, bytes: seq<Byte>): (r: seq<Byte>)
    requires at + |bytes| <= |heap|
    ensures |r| == |heap|
  {
    heap[..at] + bytes + heap[at + |bytes|..]
  }

  lemma SpliceAt(heap: seq<Byte>, at: nat, bytes: seq<Byte>, offset: nat, len: nat)
    requires at + |bytes| <= |heap| && offset + len <= |heap|
    ensures len == 0 || |bytes| == 0 || offset + len <= at || at + |bytes| <= offset ==>
      Splice(heap, at, bytes)[offset..offset + len] == heap[offset..offset + len]
    ensures at <= offset && offset + len <= at + |bytes| ==>
      Splice(heap, at, bytes)[offset..offset + len] == bytes[offset - at..offset - at + len]
  {
    var r := Splice(heap, at, bytes);
    assert forall k | 0 <= k < |heap| :: (k < at || at + |bytes| <= k ==> r[k] == heap[k]) && (at <= k < at + |bytes| ==> r[k] == bytes[k - at]);
    if len == 0 || |bytes| == 0 || offset + len <= at || at + |bytes| <= offset {
      assert r[offset..offset + len] == heap[offset..offset + len];
    }
    if at <= offset && offset + len <= at + |bytes| {
      assert r[offset..offset + len] == bytes[offset - at..offset - at + len];
    }
  }

  /** A new entry right below the heap, its slot inserted at `i`. */
  function StoreAt(p: Page, i: nat, key: Bytes, pay: Bytes): Page
    requires |p.heap| == PAGE_SIZE && i <= |p.slots| && p.prefixLen <= |key|
    requires |key| - p.prefixLen + |pay| <= p.dataOffset <= PAGE_SIZE
  {
    var suffix := key[p.prefixLen..];
    var at := p.dataOffset - |suffix| - |pay|;
    p.(heap := Splice(p.heap, at, suffix + pay), dataOffset := at, spaceUsed := p.spaceUsed + |suffix| + |pay|,
       slots := p.slots[..i] + [Slot(at, |suffix|, |pay|, Head(suffix))] + p.slots[i..])
  }

  predicate RoomFor(p: Page, key: Bytes, pay: Bytes) {
    p.prefixLen <= |key| && SLOT + |key| - p.prefixLen + |pay| <= FreeSpace(p)
  }

  lemma StoreShape(p: Page, i: nat, key: Bytes, pay: Bytes)
    requires Shape(p) && i <= |p.slots| && RoomFor(p, key, pay)
    ensures Shape(StoreAt(p, i, key, pay))
    ensures Lo(StoreAt(p, i, key, pay)) == Lo(p) && Hi(StoreAt(p, i, key, pay)) == Hi(p)
  {
    hide Splice, Head;
    var q, at := StoreAt(p, i, key, pay), StoreAt(p, i, key, pay).dataOffset;
    var bytes := key[p.prefixLen..] + pay;
    SpliceAt(p.heap, at, bytes, p.lower.offset, p.lower.len);
    SpliceAt(p.heap, at, bytes, p.upper.offset, p.upper.len);
    forall j | 0 <= j < |q.slots| ensures InHeap(q, q.slots[j].offset, q.slots[j].keyLen + q.slots[j].payLen) {
      if j > i { assert q.slots[j] == p.slots[j - 1]; }
    }
  }

  lemma StoreNew(p: Page, i: nat, key: Bytes, pay: Bytes)
    requires Shape(p) && i <= |p.slots| && RoomFor(p, key, pay) && Shape(StoreAt(p, i, key, pay))
    ensures SuffixAt(StoreAt(p, i, key, pay), i) == key[p.prefixLen..] && PayAt(StoreAt(p, i, key, pay), i) == pay
  {
    hide InHeap;
    var at := StoreAt(p, i, key, pay).dataOffset;
    var suffix := key[p.prefixLen..];
    SpliceAt(p.heap, at, suffix + pay, at, |suffix|);
    SpliceAt(p.heap, at, suffix + pay, at + |suffix|, |pay|);
    assert (suffix + pay)[..|suffix|] == suffix && (suffix + pay)[|suffix|..] == pay;
  }

  lemma StoreOld(p: Page, i: nat, key: Bytes, pay: Bytes, j: nat)
    requires Shape(p) && i <= |p.slots| && RoomFor(p, key, pay) && Shape(StoreAt(p, i, key, pay)) && j < |p.slots|
    ensures var q, k := StoreAt(p, i, key, pay), if j < i then j else j + 1;
      k < |q.slots| && q.slots[k] == p.slots[j] && SuffixAt(q, k) == SuffixAt(p, j) && PayAt(q, k) == PayAt(p, j)
  {
    var s := p.slots[j];
    assert InHeap(p, s.offset, s.keyLen + s.payLen);
    hide Splice, Head, StoreAt, Shape;
    StoreSlot(p, i, key, pay, j);
    StoreRange(p, i, key, pay, s.offset, s.keyLen);
    StoreRange(p, i, key, pay, s.offset + s.keyLen, s.payLen);
  }

  lemma StoreRange(p: Page, i: nat, key: Bytes, pay: Bytes, offset: nat, len: nat)
    requires |p.heap| == PAGE_SIZE && i <= |p.slots| && p.prefixLen <= |key| && InHeap(p, offset, len)
    requires |key| - p.prefixLen + |pay| <= p.dataOffset <= PAGE_SIZE
    ensures var q := StoreAt(p, i, key, pay);
      |q.heap| == PAGE_SIZE && q.heap[offset..offset + len] == p.heap[offset..offset + len]
  {
    hide Splice, Head;
    var bytes := key[p.prefixLen..] + pay;
    SpliceAt(p.heap, p.dataOffset - |bytes|, bytes, offset, len);
  }

  lemma StoreSlot(p: Page, i: nat, key: Bytes, pay: Bytes, j: nat)
    requires |p.heap| == PAGE_SIZE && i <= |p.slots| && p.prefixLen <= |key| && j < |p.slots|
    requires |key| - p.prefixLen + |pay| <= p.dataOffset <= PAGE_SIZE
    ensures var q := StoreAt(p, i, key, pay);
      |q.slots| == |p.slots| + 1 && q.slots[if j < i then j else j + 1] == p.slots[j]
  {
    hide Splice, Head;
  }

  lemma StoreOldEntry(p: Page, i: nat, key: Bytes, pay: Bytes, j: nat)
    requires Shape(p) && i <= |p.slots| && RoomFor(p, key, pay) && Shape(StoreAt(p, i, key, pay)) && j < |p.slots|
    ensures |StoreAt(p, i, key, pay).slots| == |p.slots| + 1
    ensures var q, k := StoreAt(p, i, key, pay), if j < i then j else j + 1;
      KeyAt(q, k) == KeyAt(p, j) && PayAt(q, k) == PayAt(p, j)
  {
    hide InHeap, SuffixAt, PayAt, Lo, Hi, Splice, Head;
    StoreShape(p, i, key, pay);
    StoreOld(p, i, key, pay, j);
  }

  /** Storing an entry is inserting it into the node. */
  lemma StoreView(p: Page, i: nat, key: Bytes, pay: Bytes)
    requires Shape(p) && i <= |p.slots| && RoomFor(p, key, pay) && Shape(StoreAt(p, i, key, pay))
    requires key[..p.prefixLen] == Lo(p)[..p.prefixLen]
    ensures var n := View(p);
      View(StoreAt(p, i, key, pay)) == n.(keys := n.keys[..i] + [key] + n.keys[i..],
          pays := n.pays[..i] + [pay] + n.pays[i..])
  {
    hide InHeap, SuffixAt, PayAt, Lo, Hi, Splice, Head;
    var q, n := StoreAt(p, i, key, pay), View(p);
    StoreShape(p, i, key, pay);
    StoreNew(p, i, key, pay);
    assert KeyAt(q, i) == key;
    hide StoreAt, KeyAt, Shape;
    forall j | 0 <= j < |q.slots|
      ensures KeyAt(q, j) == (n.keys[..i] + [key] + n.keys[i..])[j]
      ensures PayAt(q, j) == (n.pays[..i] + [pay] + n.pays[i..])[j]
    {
      if j < i { StoreOldEntry(p, i, key, pay, j); } else if j > i { StoreOldEntry(p, i, key, pay, j - 1); }
    }
    assert View(q).keys == n.keys[..i] + [key] + n.keys[i..];
    assert View(q).pays == n.pays[..i] + [pay] + n.pays[i..];
  }

  /** The node with an entry put in at `i`, whether or not that is its place. */
  function PutAt(n: Node, i: nat, key: Bytes, pay: Bytes): Node
    requires |n.keys| == |n.pays| && i <= |n.keys|
  {
    n.(keys := n.keys[..i] + [key] + n.keys[i..], pays := n.pays[..i] + [pay] + n.pays[i..])
  }

  lemma PutSize(n: Node, i: nat, key: Bytes, pay: Bytes)
    requires |n.keys| == |n.pays| && i <= |n.keys|
    ensures Size(PutAt(n, i, key, pay)) == Size(n) + SLOT + |key| - Prefix(n) + |pay|
  {
    hide Common;
    var q := Prefix(n);
    BulkCut(n.keys, n.pays, i, q);
    BulkConcat(n.keys[..i] + [key], n.pays[..i] + [pay], n.keys[i..], n.pays[i..], q);
    BulkConcat(n.keys[..i], n.pays[..i], [key], [pay], q);
    assert Bulk([key], [pay], q) == SLOT + |key| - q + |pay| by { assert [key][1..] == [] && [pay][1..] == []; }
  }

  lemma StoreApart(p: Page, i: nat, key: Bytes, pay: Bytes)
    requires Shape(p) && RangesApart(p) && i <= |p.slots| && RoomFor(p, key, pay)
    ensures RangesApart(StoreAt(p, i, key, pay))
  {
    hide Splice, Head;
    var q := StoreAt(p, i, key, pay);
    forall j | 0 <= j < |q.slots| ensures FencesApart(q, j) {
      if j < i { assert FencesApart(p, j); } else if j > i { assert FencesApart(p, j - 1); }
    }
    forall j, k | 0 <= j < k < |q.slots| ensures SlotsApart(q, j, k) {
      if j != i && k != i {
        assert SlotsApart(p, if j < i then j else j - 1, if k < i then k else k - 1);
      } else {
        var o := if j == i then k else j;
        assert InHeap(p, p.slots[if o < i then o else o - 1].offset,
            p.slots[if o < i then o else o - 1].keyLen + p.slots[if o < i then o else o - 1].payLen);
      }
    }
  }

  lemma StoreHeads(p: Page, i: nat, key: Bytes, pay: Bytes)
    requires Shape(p) && HeadsFit(p) && i <= |p.slots| && RoomFor(p, key, pay) && Shape(StoreAt(p, i, key, pay))
    ensures HeadsFit(StoreAt(p, i, key, pay))
  {
    hide Splice, Head, InHeap, SuffixAt, PayAt;
    var q := StoreAt(p, i, key, pay);
    forall j | 0 <= j < |q.slots| ensures q.slots[j].head == Head(SuffixAt(q, j)) {
      if j < i { StoreOld(p, i, key, pay, j); }
      else if j == i { StoreNew(p, i, key, pay); }
      else { StoreOld(p, i, key, pay, j - 1); }
    }
  }

  /** Storing an entry keeps the accounting. */
  lemma StoreLaid(p: Page, i: nat, key: Bytes, pay: Bytes)
    requires Laid(p) && i <= |p.slots| && RoomFor(p, key, pay)
    requires key[..p.prefixLen] == Lo(p)[..p.prefixLen]
    ensures Laid(StoreAt(p, i, key, pay)) && View(StoreAt(p, i, key, pay)) == PutAt(View(p), i, key, pay)
  {
    hide RangesApart, Splice, Common, Bulk, HeadsFit, Shape, KeysOf, PaysOf, Lo, Hi, Head;
    var q := StoreAt(p, i, key, pay) by { ShapeFacts(p); }
    StoreShape(p, i, key, pay);
    StoreView(p, i, key, pay);
    StoreApart(p, i, key, pay);
    StoreHeads(p, i, key, pay);
    PutSize(View(p), i, key, pay);
  }

  lemma ShapeFacts(p: Page)
    requires Shape(p)
    ensures |p.heap| == PAGE_SIZE && HEADER + SLOT * |p.slots| <= p.dataOffset <= PAGE_SIZE
    ensures p.prefixLen <= |Lo(p)|
  {
  }

  // ----- dropping an entry -----

  function DropAt(p: Page, i: nat): Page
    requires i < |p.slots|
  {
    p.(slots := p.slots[..i] + p.slots[i + 1..], spaceUsed := p.spaceUsed - p.slots[i].keyLen - p.slots[i].payLen)
  }

  lemma DropShape(p: Page, i: nat)
    requires Shape(p) && i < |p.slots|
    ensures Shape(DropAt(p, i)) && Lo(DropAt(p, i)) == Lo(p) && Hi(DropAt(p, i)) == Hi(p)
    ensures forall j | 0 <= j < |p.slots| - 1 :: DropAt(p, i).slots[j] == p.slots[if j < i then j else j + 1]
  {
    hide InHeap;
    var q := DropAt(p, i);
    assert forall j | 0 <= j < |q.slots| :: q.slots[j] == p.slots[if j < i then j else j + 1];
    assert InHeap(q, q.lower.offset, q.lower.len) && InHeap(q, q.upper.offset, q.upper.len) by { DropBounds(p, i); }
    forall j | 0 <= j < |q.slots| ensures InHeap(q, q.slots[j].offset, q.slots[j].keyLen + q.slots[j].payLen) {
      DropBounds(p, i);
      assert InHeap(p, q.slots[j].offset, q.slots[j].keyLen + q.slots[j].payLen);
    }
  }

  lemma DropBounds(p: Page, i: nat)
    requires i < |p.slots|
    ensures forall offset, len :: InHeap(DropAt(p, i), offset, len) <==> InHeap(p, offset, len)
  {
  }

  lemma DropView(p: Page, i: nat)
    requires Shape(p) && i < |p.slots| && Shape(DropAt(p, i))
    ensures View(DropAt(p, i)) == RemoveAt(View(p), i)
  {
    DropShape(p, i);
    hide InHeap, Lo, Hi, Shape;
    var q, n := DropAt(p, i), View(p);
    assert View(q).keys == n.keys[..i] + n.keys[i + 1..];
    assert View(q).pays == n.pays[..i] + n.pays[i + 1..];
  }

  lemma DropApart(p: Page, i: nat)
    requires Shape(p) && RangesApart(p) && i < |p.slots|
    ensures RangesApart(DropAt(p, i))
  {
    DropShape(p, i);
    hide InHeap, Shape;
    var q := DropAt(p, i);
    forall j | 0 <= j < |q.slots| ensures FencesApart(q, j) {
      assert FencesApart(p, if j < i then j else j + 1);
    }
    forall j, k | 0 <= j < k < |q.slots| ensures SlotsApart(q, j, k) {
      assert SlotsApart(p, if j < i then j else j + 1, if k < i then k else k + 1);
    }
  }

  lemma DropHeads(p: Page, i: nat)
    requires Shape(p) && HeadsFit(p) && i < |p.slots| && Shape(DropAt(p, i))
    ensures HeadsFit(DropAt(p, i))
  {
    DropShape(p, i);
    hide InHeap, Head;
    var q := DropAt(p, i);
    forall j | 0 <= j < |q.slots| ensures q.slots[j].head == Head(SuffixAt(q, j)) {
      var o := if j < i then j else j + 1;
      assert q.slots[j] == p.slots[o] && SuffixAt(q, j) == SuffixAt(p, o);
    }
  }

  /** Dropping a slot keeps the accounting; its bytes stay behind in the heap. */
  lemma DropLaid(p: Page, i: nat)
    requires Laid(p) && i < |p.slots|
    ensures Laid(DropAt(p, i)) && View(DropAt(p, i)) == RemoveAt(View(p), i)
  {
    hide RangesApart, Common, Bulk, HeadsFit, Shape, Lo, Hi, Head, SuffixAt, KeyAt, PayAt;
    DropShape(p, i);
    DropView(p, i);
    DropApart(p, i);
    DropHeads(p, i);
    RemoveSize(View(p), i);
    LengthsAt(p, i);
  }

  lemma LengthsAt(p: Page, i: nat)
    requires Shape(p) && i < |p.slots|
    ensures |View(p).keys[i]| == p.prefixLen + p.slots[i].keyLen && |View(p).pays[i]| == p.slots[i].payLen
  {
    assert InHeap(p, p.slots[i].offset, p.slots[i].keyLen + p.slots[i].payLen);
    assert View(p).keys[i] == KeyAt(p, i) && View(p).pays[i] == PayAt(p, i);
  }

  // ----- overwriting a payload -----

  function PayOver(p: Page, i: nat, pay: Bytes): Page
    requires |p.heap| == PAGE_SIZE && i < |p.slots| && p.slots[i].offset + p.slots[i].keyLen + |pay| <= PAGE_SIZE
  {
    p.(heap := Splice(p.heap, p.slots[i].offset + p.slots[i].keyLen, pay))
  }

  lemma OverShape(p: Page, i: nat, pay: Bytes)
    requires Shape(p) && RangesApart(p) && i < |p.slots| && |pay| == p.slots[i].payLen
    ensures p.slots[i].offset + p.slots[i].keyLen + |pay| <= PAGE_SIZE
    ensures Shape(PayOver(p, i, pay)) && Lo(PayOver(p, i, pay)) == Lo(p) && Hi(PayOver(p, i, pay)) == Hi(p)
  {
    hide Splice;
    var at := p.slots[i].offset + p.slots[i].keyLen;
    assert FencesApart(p, i);
    SpliceAt(p.heap, at, pay, p.lower.offset, p.lower.len);
    SpliceAt(p.heap, at, pay, p.upper.offset, p.upper.len);
  }

  lemma OverKeys(p: Page, i: nat, pay: Bytes)
    requires Shape(p) && RangesApart(p) && HeadsFit(p) && i < |p.slots| && |pay| == p.slots[i].payLen
    requires p.slots[i].offset + p.slots[i].keyLen + |pay| <= PAGE_SIZE && Shape(PayOver(p, i, pay))
    ensures View(PayOver(p, i, pay)).keys == View(p).keys && HeadsFit(PayOver(p, i, pay))
  {
    OverShape(p, i, pay);
    hide Splice, Shape, RangesApart, Lo, Hi, SuffixAt, PayAt, Head, PaysOf;
    var q := PayOver(p, i, pay);
    forall j | 0 <= j < |q.slots| ensures SuffixAt(q, j) == SuffixAt(p, j) { OverOther(p, i, pay, j); }
    assert forall j | 0 <= j < |q.slots| :: KeyAt(q, j) == KeyAt(p, j);
  }

  lemma OverView(p: Page, i: nat, pay: Bytes)
    requires Shape(p) && RangesApart(p) && HeadsFit(p) && i < |p.slots| && |pay| == p.slots[i].payLen
    requires p.slots[i].offset + p.slots[i].keyLen + |pay| <= PAGE_SIZE && Shape(PayOver(p, i, pay))
    ensures View(PayOver(p, i, pay)) == SetPay(View(p), i, pay)
  {
    OverShape(p, i, pay);
    OverKeys(p, i, pay);
    hide Splice, Shape, RangesApart, Lo, Hi, SuffixAt, PayAt, Head, KeysOf, HeadsFit;
    var q := PayOver(p, i, pay);
    forall j | 0 <= j < |q.slots|
      ensures PayAt(q, j) == if j == i then pay else PayAt(p, j)
    {
      OverOther(p, i, pay, j);
    }
    assert View(q).pays == View(p).pays[i := pay];
  }

  /** Writing into one payload changes nothing else: the ranges are disjoint. */
  lemma PayOverLaid(p: Page, i: nat, pay: Bytes)
    requires Laid(p) && i < |p.slots| && |pay| == p.slots[i].payLen
    ensures p.slots[i].offset + p.slots[i].keyLen + |pay| <= PAGE_SIZE
    ensures Laid(PayOver(p, i, pay)) && View(PayOver(p, i, pay)) == SetPay(View(p), i, pay)
  {
    hide RangesApart, Splice, Common, Bulk, HeadsFit, Shape, Lo, Hi, Head, SuffixAt, KeyAt, PayAt;
    OverShape(p, i, pay);
    OverHeap(p, i, pay);
    OverKeys(p, i, pay);
    OverView(p, i, pay);
    OverApart(p, i, pay);
    SetPaySize(View(p), i, pay);
    LengthsAt(p, i);
  }

  lemma OverHeap(p: Page, i: nat, pay: Bytes)
    requires Shape(p)
    ensures |p.heap| == PAGE_SIZE
  {
  }

  lemma OverApart(p: Page, i: nat, pay: Bytes)
    requires RangesApart(p) && |p.heap| == PAGE_SIZE && i < |p.slots|
    requires p.slots[i].offset + p.slots[i].keyLen + |pay| <= PAGE_SIZE
    ensures RangesApart(PayOver(p, i, pay))
  {
    var q := PayOver(p, i, pay);
    assert forall j | 0 <= j < |p.slots| :: FencesApart(q, j) <==> FencesApart(p, j);
    forall j, k | 0 <= j < k < |q.slots| ensures SlotsApart(q, j, k) { assert SlotsApart(p, j, k); }
  }

  lemma OverOther(p: Page, i: nat, pay: Bytes, j: nat)
    requires Shape(p) && RangesApart(p) && i < |p.slots| && j < |p.slots| && |pay| == p.slots[i].payLen
    requires Shape(PayOver(p, i, pay))
    ensures SuffixAt(PayOver(p, i, pay), j) == SuffixAt(p, j)
    ensures PayAt(PayOver(p, i, pay), j) == if j == i then pay else PayAt(p, j)
  {
    hide Splice, Head;
    if j == i {
      var s := p.slots[i];
      SpliceAt(p.heap, s.offset + s.keyLen, pay, s.offset, s.keyLen);
      SpliceAt(p.heap, s.offset + s.keyLen, pay, s.offset + s.keyLen, s.payLen);
    } else {
      OverElse(p, i, pay, j);
    }
  }

  lemma OverElse(p: Page, i: nat, pay: Bytes, j: nat)
    requires Shape(p) && RangesApart(p) && i < |p.slots| && j < |p.slots| && j != i && |pay| == p.slots[i].payLen
    requires Shape(PayOver(p, i, pay))
    ensures SuffixAt(PayOver(p, i, pay), j) == SuffixAt(p, j) && PayAt(PayOver(p, i, pay), j) == PayAt(p, j)
  {
    SlotOutside(p, i, j);
    hide Shape, RangesApart, Head, Splice;
    var s, at := p.slots[j], p.slots[i].offset + p.slots[i].keyLen;
    OutsideSame(p.heap, at, pay, s.offset, s.keyLen, s.payLen);
  }

  lemma OutsideSame(heap: seq<Byte>, at: nat, pay: Bytes, offset: nat, keyLen: nat, payLen: nat)
    requires offset + keyLen + payLen <= |heap| && at + |pay| <= |heap|
    requires keyLen + payLen == 0 || |pay| == 0 || offset + keyLen + payLen <= at || at + |pay| <= offset
    ensures Splice(heap, at, pay)[offset..offset + keyLen] == heap[offset..offset + keyLen]
    ensures var o := offset + keyLen; Splice(heap, at, pay)[o..o + payLen] == heap[o..o + payLen]
  {
    hide Splice;
    SpliceAt(heap, at, pay, offset, keyLen);
    SpliceAt(heap, at, pay, offset + keyLen, payLen);
  }

  /** The bytes of slot `j` do not meet the payload of slot `i`. */
  lemma SlotOutside(p: Page, i: nat, j: nat)
    requires Shape(p) && RangesApart(p) && i < |p.slots| && j < |p.slots| && j != i
    ensures var s, at, len := p.slots[j], p.slots[i].offset + p.slots[i].keyLen, p.slots[i].payLen;
      && s.offset + s.keyLen + s.payLen <= |p.heap| && at + len <= |p.heap|
      && (s.keyLen + s.payLen == 0 || len == 0 || s.offset + s.keyLen + s.payLen <= at || at + len <= s.offset)
  {
    if j < i { assert SlotsApart(p, j, i); } else { assert SlotsApart(p, i, j); }
  }

  // ----- a fresh page with fences -----

  /** Two fences at the end of the heap, nothing else. */
  function Fenced(leaf: bool, link: Pid, lo: Bytes, hi: Bytes, heap: seq<Byte>): Page
    requires |heap| == PAGE_SIZE && |lo| + |hi| <= PAGE_SIZE
  {
    var a := PAGE_SIZE - |lo|;
    var b := a - |hi|;
    Page(leaf, link, Fence(a, |lo|), Fence(b, |hi|), |lo| + |hi|, b, Common(lo, hi), [],
         Splice(Splice(heap, a, lo), b, hi))
  }

  lemma FencedLaid(leaf: bool, link: Pid, lo: Bytes, hi: Bytes, heap: seq<Byte>)
    requires |heap| == PAGE_SIZE && |lo| + |hi| <= PAGE_SIZE - HEADER
    ensures var p := Fenced(leaf, link, lo, hi, heap);
      Laid(p) && View(p) == Node(leaf, lo, hi, [], [], link) && p.dataOffset + p.spaceUsed == PAGE_SIZE
  {
    hide Splice, Common;
    var p := Fenced(leaf, link, lo, hi, heap);
    var a := PAGE_SIZE - |lo|;
    SpliceAt(heap, a, lo, a, |lo|);
    SpliceAt(Splice(heap, a, lo), a - |hi|, hi, a, |lo|);
    SpliceAt(Splice(heap, a, lo), a - |hi|, hi, a - |hi|, |hi|);
    assert Shape(p);
    assert Lo(p) == Splice(heap, a, lo)[a..a + |lo|] == lo[0..|lo|];
    assert Lo(p) == lo;
    assert Hi(p) == hi[0..|hi|] == hi;
    assert View(p) == Node(leaf, lo, hi, [], [], link);
  }

  // ----- copying entries -----

  lemma BulkLast(keys: seq<Bytes>, pays: seq<Bytes>, n: nat, p: int)
    requires |keys| == |pays| && 0 < n <= |keys|
    ensures Bulk(keys[..n], pays[..n], p) == Bulk(keys[..n - 1], pays[..n - 1],
        p) + SLOT + |keys[n - 1]| - p + |pays[n - 1]|
  {
    BulkCut(keys[..n], pays[..n], n - 1, p);
    BulkAt(keys[..n], pays[..n], n - 1, p);
    assert keys[..n][..n - 1] == keys[..n - 1] && pays[..n][..n - 1] == pays[..n - 1];
    assert keys[..n][n..] == [] && pays[..n][n..] == [];
  }

  /** `keys` all start with the bytes the page cuts. */
  predicate Shared(p: Page, keys: seq<Bytes>)
    requires Shape(p)
  {
    forall i | 0 <= i < |keys| :: p.prefixLen <= |keys[i]| && keys[i][..p.prefixLen] == Lo(p)[..p.prefixLen]
  }

  /** `q` is `p` with the first `n` of some entries appended. */
  predicate Appended(p: Page, q: Page, keys: seq<Bytes>, pays: seq<Bytes>, n: nat)
    requires Shape(p) && |keys| == |pays| && n <= |keys|
  {
    && Laid(q) && q.lower == p.lower && q.upper == p.upper && q.prefixLen == p.prefixLen
    && View(q) == View(p).(keys := View(p).keys + keys[..n], pays := View(p).pays + pays[..n])
    && FreeSpace(q) == FreeSpace(p) - Bulk(keys[..n], pays[..n], p.prefixLen)
    && q.dataOffset + q.spaceUsed == p.dataOffset + p.spaceUsed
  }

  lemma AppendedNone(p: Page, keys: seq<Bytes>, pays: seq<Bytes>)
    requires Laid(p) && |keys| == |pays|
    ensures Appended(p, p, keys, pays, 0)
  {
    hide RangesApart, HeadsFit, Accounted, Shape, Lo, Hi, KeysOf, PaysOf;
    assert View(p).keys + keys[..0] == View(p).keys && View(p).pays + pays[..0] == View(p).pays;
  }

  lemma AppendStep(p: Page, q: Page, keys: seq<Bytes>, pays: seq<Bytes>, n: nat)
    requires Laid(p) && |keys| == |pays| && n < |keys| && Appended(p, q, keys, pays, n)
    requires Shared(p, keys) && Bulk(keys[..n + 1], pays[..n + 1], p.prefixLen) <= FreeSpace(p)
    ensures RoomFor(q, keys[n], pays[n]) && |q.heap| == PAGE_SIZE && q.dataOffset <= PAGE_SIZE
    ensures Appended(p, StoreAt(q, |q.slots|, keys[n], pays[n]), keys, pays, n + 1)
  {
    hide Bulk, RangesApart, HeadsFit, Accounted, Splice, Shape, Lo, Hi, KeysOf, PaysOf;
    BulkLast(keys, pays, n + 1, p.prefixLen);
    ShapeFacts(p);
    ShapeFacts(q);
    var k := keys[n];
    assert k[..p.prefixLen] == Lo(p)[..p.prefixLen];
    assert Lo(q) == View(q).lo == View(p).lo == Lo(p);
    StoreLaid(q, |q.slots|, k, pays[n]);
    PutLast(View(q), k, pays[n]);
    assert View(p).keys + keys[..n + 1] == (View(p).keys + keys[..n]) + [k];
    assert View(p).pays + pays[..n + 1] == (View(p).pays + pays[..n]) + [pays[n]];
  }

  lemma PutLast(n: Node, k: Bytes, v: Bytes)
    requires |n.keys| == |n.pays|
    ensures PutAt(n, |n.keys|, k, v) == n.(keys := n.keys + [k], pays := n.pays + [v])
  {
  }

  // ----- hints -----

  const HINTS := 16

  /** With more than 32 entries, `hint[i]` is the head of every `count / 17`-th slot. */
  predicate HintsFit(slots: seq<Slot>, hint: seq<int>) {
    |hint| == HINTS && (|slots| > 2 * HINTS ==> forall i: nat | i < HINTS :: HintAt(slots, hint, i))
  }

  predicate HintAt(slots: seq<Slot>, hint: seq<int>, i: nat)
    requires i < HINTS && |hint| == HINTS
  {
    HintSlot(|slots|, i) < |slots| && hint[i] == slots[HintSlot(|slots|, i)].head
  }

  /** The slot hint `i` is taken from. */
  function HintSlot(count: nat, i: nat): nat {
    count / 17 * (i + 1)
  }

  lemma HintInside(count: nat, i: nat)
    requires count > 2 * HINTS && i < HINTS
    ensures HintSlot(count, i) < count
  {
    var d := count / 17;
    MulMono(d, i + 1, 16);
  }

  /** Where `updateHint` starts to refresh after an insert at `slotId`; earlier hints are still right. */
  function RefreshFrom(count: nat, slotId: nat): nat {
    var dist := count / 17;
    if count > 2 * HINTS + 1 && (count - 1) / 17 == dist && slotId / dist > 1 then slotId / dist - 1 else 0
  }

  lemma BeforeRefresh(d: nat, slotId: nat, i: nat)
    requires d > 0 && i + 1 <= slotId / d - 1
    ensures d * (i + 1) < slotId
  {
    MulMono(d, i + 1, slotId / d - 1);
    assert d * (slotId / d - 1) == d * (slotId / d) - d;
  }

  /** The partial refresh is enough: hints before it point at slots the insert did not move. */
  lemma RefreshEnough(slots: seq<Slot>, hint: seq<int>, slotId: nat, s: Slot, i: nat)
    requires HintsFit(slots, hint) && slotId <= |slots| && i < HINTS && i < RefreshFrom(|slots| + 1, slotId)
    ensures |slots| + 1 > 2 * HINTS + 1 && HintAt(slots[..slotId] + [s] + slots[slotId..], hint, i)
  {
    assert HintAt(slots, hint, i);
    BeforeRefresh((|slots| + 1) / 17, slotId, i);
    assert HintSlot(|slots| + 1, i) == HintSlot(|slots|, i) < slotId;
    hide HintSlot;
  }

  lemma MulMono(d: nat, a: int, b: int)
    requires a <= b
    ensures d * a <= d * b
  {
  }
}
