# vmcache: locks, B+tree, key codec, block routines, random numbers, BFS and TPC-C

This project models the cores of the vmcache port and of its two workloads, and proves what they are for.
`dafny verify dfyconfig.toml` verifies all of it.

| module | models |
|---|---|
| `PageLocks` | the page lock word `PageState`: state byte and 56-bit version, changed by single atomic steps of any number of threads; the class `PageState`; optimistic validation |
| `Keys`, `Nodes` | byte-string order, prefix cut and heads; a B+tree node as a sorted list of keys and payloads between fences, with insert, remove, split and merge |
| `Spaces` | what a node needs on its page; choice of separators; when the halves of a split fit; the bound on merged leaves |
| `Reads`, `Lookups` | the search of a page with everything it reads, bytes behind keys and page included; exactly when it is right |
| `Layouts`, `Searches`, `Pages` | the slotted page: slot array, heap bytes, fences, hints and accounting; the class `BTreeNode` on arrays, every method proved against the node operation |
| `Trees`, `TreeSteps`, `Scans`, `BTrees` | the tree over pages and the map it stands for; invariants, progress of inserts, scans; the class `BTree` |
| `Links`, `LongReads`, `Lopsided` | the invariant of the tree gives what the methods of its pages ask for; lookups in trees with keys of any length; a tree into which one key cannot be inserted |
| `Olc`, `OlcProofs`, `Linear`, `CleanRuns`, `TableTrees` | optimistic lock coupling: lookups, updates, inserts and removals of any number of threads as atomic steps in any interleaving; a condition on the calls alone under which nothing goes wrong, and that the keys of every table meet it |
| `Solo`, `SoloInserts`, `SoloMerges` | the other side of that: every operation of a thread that is left alone has a run that ends as it should, splits, new roots and merges included; and what threads may do to each other |
| `Blocks`, `Copies` | the AVX2 comparison and copy routines |
| `Folding` | field codes and composite keys |
| `Twister`, `TwisterOutputs` | the 64-bit Mersenne Twister, regenerated in place; its first known outputs |
| `Graphs`, `Bfs`, `Sweep` | shortest distances; the frontier search with its compare-and-swap races; the dense sweep with its lost updates |
| `Tables`, `TableProofs`, `TableEffects`, `Tpcc` | the TPC-C tables and transactions, the consistency conditions, what each transaction does to every row, and the class `Workload` that updates the tables in place |

A page is modelled three times: as bytes (`Pages`), as a node (`Nodes`) and as part of a tree (`Trees`).
`Pages` proves each method on bytes equal to the operation on nodes, `Trees` and `TreeSteps` prove that these
operations keep the tree and the map, and `Linear` does so for interleaved threads. The class `BTree` holds
nodes, not byte pages; `Links` proves that whatever node the tree searches or changes, the method of the page
may be called and its search is exact.

## What the code does not do

Most properties hold as the code and its comments promise. Where one does not, the project proves exactly when
it does.

* **The left half of a leaf split can overflow its page** (`integrated_vmcache.cpp:987-1027`). The half gets the
  separator as its upper fence; a full key there can be longer than what moves out. `Spaces.LeftFits` gives the
  exact condition and `Spaces.LeftCanOverflow` a leaf that violates it, with keys of 64 bytes. It takes a key that
  is more than a slot longer than the next one, which ends at the first byte in which the two differ
  (`BTrees.TameNeverOverflows`). No two folded keys of one table are like that, whatever the fields
  (`TableTrees.FoldedTame`), nor are keys of one length. `BTrees.BTree.Insert` reports `Overflow` there, `BTrees.StuckStays` says that such an insert cannot
  succeed by any number of splits, and `Lopsided.StuckInsert` is an insert of a one-byte key that fails so. For
  interleaved threads such a split is one of the two ways to go wrong (`Linear.CrashesExactly`).
* **`rte_memcmp` compares bytes behind its range** for lengths 65 to 79 and 97 to 111 (`rte_string.hh:1258-1284`):
  the middle block of 16 bytes ends beyond them. `Blocks.MemcmpExact` says when the result is still right, and
  `Blocks.OverReadExample` shows that equal ranges can compare as unequal. So a page can miss its own key:
  `Lookups.LostKey` is a page with one key of 65 bytes that is not found when 15 high bytes follow the key in the
  caller's buffer. `Lookups.ExactIffHarmless` says exactly for which keys a search is right whatever follows them,
  and `Lookups.AllFoundIff` exactly which pages find all their keys. Nodes whose keys and fences have at most 64
  bytes can be searched for any key (`Reads.ShortNodeSearchable`), and trees are built from such keys; no key of the
  schema is longer than 44. A bound on the lengths of stored suffixes would not do, because splits shorten them
  (`Reads.SplitUnfits`), but lookups are right in any tree as long as the lengths on the way are
  (`LongReads.LookupByLengths`).
* **The version carries into the state byte** at the last version (`PageLocks.NextVersionUnpacks`,
  `PageLocks.LastVersionCarries`): the page that is unlocked there ends up shared by nobody. Runs only take releases
  while there is a next version.
* **`insert` does not look for the key**, so it must be absent; and the empty key means "no fence", so it must not
  be empty. For interleaved threads, writing an entry whose key is there is the other way to go wrong
  (`Linear.CrashesExactly`).
* **Texts with zero bytes** do not survive folding (`Folding.FoldRoundTrip` holds if and only if no text has one),
  and they break the order of folded keys if and only if something that can vary follows the text
  (`Folding.FoldOrderExact`); in the schema this is the table of customers by name alone (`Folding.SchemaOrder`).
* **The loaded TPC-C tables miss two conditions by a constant** that no transaction changes
  (`TableProofs.LoadedRun`): districts add up to 27,000,000 more than their warehouse (clause 3.3.2.1), and the
  loader sets `c_ytd_payment` to 1 although 10 was paid, so balance and yearly payments are 9 short of the
  delivered amounts (clause 3.3.2.12). Order 2100 is loaded as delivered and as queued; its amounts are zero, so
  delivering it again does no harm.
* **`paymentByName` collects the money before it finds that nobody has the name** (`TPCCWorkload.hpp:676-714`); the
  conditions hold all the same, because no payment is recorded.

## Model

| member | source | states |
|---|---|---|
| PageLocks.Unpack | integrated_vmcache/integrated_vmcache.cpp:90-91 | A lock word is its state byte times 2^56 plus its version: the two parts determine the word. |
| PageLocks.SameVersionUnpacks | integrated_vmcache/integrated_vmcache.cpp:90 | A word made with `sameVersion` has the given state and the old version. |
| PageLocks.NextVersionUnpacks | integrated_vmcache/integrated_vmcache.cpp:91 | A word made with `nextVersion` has the given state and the next version if and only if the version is not the last one; at the last one the carry reaches the state byte. |
| PageLocks.LastVersionCarries | integrated_vmcache/integrated_vmcache.cpp:91 | At the last version the version starts over at 0, and an even state comes out one higher. |
| PageLocks.PageState.constructor | integrated_vmcache/integrated_vmcache.cpp:86-88 | A fresh word is Evicted with version 0. |
| PageLocks.PageState.CompareExchange | integrated_vmcache/integrated_vmcache.cpp:94 | One compare-and-swap: it succeeds exactly when the expected word is there, and changes nothing otherwise. |
| PageLocks.PageState.TryLockX | integrated_vmcache/integrated_vmcache.cpp:93-95 | Succeeds exactly when the word is the observed one; then the state is Locked and the version is kept, which is the protocol's lock action wherever that one is enabled. |
| PageLocks.PageState.UnlockX | integrated_vmcache/integrated_vmcache.cpp:97-100 | A Locked word becomes Unlocked with the next version; at the last one, shared by one holder with version 0. |
| PageLocks.PageState.UnlockXEvicted | integrated_vmcache/integrated_vmcache.cpp:102-105 | A Locked word becomes Evicted with the next version, 0 after the last. |
| PageLocks.PageState.DowngradeLock | integrated_vmcache/integrated_vmcache.cpp:107-110 | A Locked word becomes shared by one holder with the next version, 0 after the last. |
| PageLocks.PageState.TryLockS | integrated_vmcache/integrated_vmcache.cpp:112-119 | Adds one holder below 252, turns a mark into one holder, and fails on a full, Locked or Evicted page or when the word has moved on. |
| PageLocks.PageState.UnlockSRound | integrated_vmcache/integrated_vmcache.cpp:121-129 | One round of the release loop takes exactly one holder off the observed word, or finds that the word has moved on. |
| PageLocks.PageState.TryMark | integrated_vmcache/integrated_vmcache.cpp:131-134 | Marks the observed Unlocked word without touching its version. |
| PageLocks.PageState.CheckVersion | integrated_vmcache/integrated_vmcache.cpp:259-276 | Goes on exactly when the word is unchanged, or has the same version with only shared locks or a mark; a mark is cleared on the way, which is all that can happen to the word: its holders stay, and a failed check changes nothing. |
| PageLocks.StepEffect | integrated_vmcache/integrated_vmcache.cpp:77-140 | What every action of the protocol does to state byte and version of a word that fits its holders. |
| PageLocks.StepInv | integrated_vmcache/integrated_vmcache.cpp:77-140 | Every action of any thread keeps the invariant: Locked exactly while someone holds the page exclusively, and otherwise the state byte counts the shared holders. |
| PageLocks.OnlyHolderSteps | integrated_vmcache/integrated_vmcache.cpp:93-134 | While a page is held exclusively, nobody but the holder has an enabled action on its word, and the holder can only release or downgrade. |
| PageLocks.RunSafe | integrated_vmcache/integrated_vmcache.cpp:77-140 | In every state of every interleaving: an exclusive holder excludes all shared ones, there are at most 252 shared holders and the state byte is their number, and without holders the state is Unlocked, Marked or Evicted. |
| PageLocks.RunVersion | integrated_vmcache/integrated_vmcache.cpp:97-110 | Between two states of a run the version has grown by exactly the number of exclusive releases and downgrades. |
| PageLocks.CheckMeaning | integrated_vmcache/integrated_vmcache.cpp:259-276 | The shifted-word comparison of `checkVersionAndRestart` passes exactly for equal versions with a shared, unlocked or marked state. |
| PageLocks.ValidationExact | integrated_vmcache/integrated_vmcache.cpp:211-276 | A guard that read the word at one moment passes its check at a later one if and only if nobody held the page exclusively at any moment in between, marks notwithstanding. |
| PageLocks.SameVersionQuiet | integrated_vmcache/integrated_vmcache.cpp:309-329 | Equal versions and no exclusive lock at both ends, which is what upgrades to an exclusive or a shared guard look at, mean that nobody held the page exclusively in between. |
| Keys.HeadOrder | integrated_vmcache/integrated_vmcache.cpp:685-700 | Heads never contradict the order of keys: a key that is not below another has a head at least as large. |
| Keys.CutPrefix | integrated_vmcache/integrated_vmcache.cpp:784-793 | Cutting a shared prefix leaves the order and the rest of the common prefix alone. |
| Keys.BetweenCarriesPrefix | integrated_vmcache/integrated_vmcache.cpp:723-725 | Every key above the lower fence and at most the upper one starts with the prefix the fences share. |
| Nodes.LittleEndianRoundTrip | integrated_vmcache/integrated_vmcache.cpp:738 | A number written as little-endian bytes reads back. |
| Nodes.LowerBoundUnique | integrated_vmcache/integrated_vmcache.cpp:779-827 | The lower bound is the only place with smaller keys before it and no smaller key behind it. |
| Nodes.FoundIffMember | integrated_vmcache/integrated_vmcache.cpp:779-827 | In a sorted node the key at the lower bound is the searched one if and only if the key is in the node. |
| Nodes.InsertGet | integrated_vmcache/integrated_vmcache.cpp:836-849 | After an insert the node answers the new payload for the new key and what it answered before for all others. |
| Nodes.RemoveGet | integrated_vmcache/integrated_vmcache.cpp:851-868 | After a removal the node answers nothing for the removed key and what it answered before for all others. |
| Nodes.SetPayGet | integrated_vmcache/integrated_vmcache.cpp:1170-1187 | After an update in place only the answer for that key changes. |
| Nodes.SplitWellFormed | integrated_vmcache/integrated_vmcache.cpp:987-1027 | Both halves of a split are sorted, within their fences, and inner halves keep a right-most child. |
| Nodes.SplitGet | integrated_vmcache/integrated_vmcache.cpp:1012-1016 | Every key is answered by the half on its side of the separator as the old leaf answered it. |
| Nodes.SplitKids | integrated_vmcache/integrated_vmcache.cpp:1017-1023 | The halves of an inner node have its children, each with the same gap; the child at the separator becomes the right-most child of the left half. |
| Nodes.SplitParentKids | integrated_vmcache/integrated_vmcache.cpp:1001-1010 | After a split the parent has the separator at the child's slot, the left page before it, the new page behind it, and all other children as before. |
| Nodes.SplitParentGaps | integrated_vmcache/integrated_vmcache.cpp:1001-1010 | The gap of the split child is divided at the separator; all other gaps are unchanged. |
| Nodes.MergeWellFormed | integrated_vmcache/integrated_vmcache.cpp:888-915 | The merged leaf is sorted and within the outer fences of the two. |
| Nodes.MergeGet | integrated_vmcache/integrated_vmcache.cpp:905-906 | The merged leaf answers every key as the leaf that covered it did. |
| Nodes.MergeParentKids | integrated_vmcache/integrated_vmcache.cpp:907-909 | The parent loses exactly one slot and the right leaf; the left leaf takes its place. |
| Nodes.MergeParentGaps | integrated_vmcache/integrated_vmcache.cpp:907-909 | The gaps of the two leaves become one; all other gaps are unchanged. |
| Spaces.InsertSize | integrated_vmcache/integrated_vmcache.cpp:740-743 | An insert uses exactly `spaceNeeded` bytes of the page. |
| Spaces.RemoveSize | integrated_vmcache/integrated_vmcache.cpp:851-859 | A removal frees exactly the slot, the stored part of the key and the payload. |
| Spaces.SepInRange | integrated_vmcache/integrated_vmcache.cpp:1035-1088 | The separator is copied from bytes that exist, is never longer than the key it follows, and a leaf always keeps an entry on the right. |
| Spaces.SlotChosen | integrated_vmcache/integrated_vmcache.cpp:1047-1074 | An inner node is cut in the middle, a leaf filled in order before its last entry, and any other leaf of at most 16 entries so that the left half has as many entries as the right one or one more. |
| Spaces.LargeLeafSlot | integrated_vmcache/integrated_vmcache.cpp:1056-1073 | A larger leaf is cut between count/2 - count/16 and count/2: at the lower end if the keys of that range share equally much with the first key, and otherwise at the first one that shares something else. |
| Spaces.SeparatorShortest | integrated_vmcache/integrated_vmcache.cpp:1074-1082 | A leaf's separator is cut short exactly when the two keys allow it, and then no shorter key lies between them; otherwise it is the key at the slot. |
| Spaces.SeparatorCuts | integrated_vmcache/integrated_vmcache.cpp:1047-1088 | The separator is at or above the key at its slot and below the next key and the upper fence, equals the key at its slot in an inner node, and carries the node's prefix. |
| Spaces.TruncatedBetween | integrated_vmcache/integrated_vmcache.cpp:1076-1079 | One byte past the common prefix of two keys gives a key strictly between them. |
| Spaces.LeftSize | integrated_vmcache/integrated_vmcache.cpp:998-1023 | The exact size of the left half of a split. |
| Spaces.RightFits | integrated_vmcache/integrated_vmcache.cpp:999-1020 | The right half of a split always fits its page. |
| Spaces.LeftFits | integrated_vmcache/integrated_vmcache.cpp:987-1027 | The left half fits if and only if the node is an inner one, the separator is truncated, or the key suffix at the separator slot is no longer than the slack that moving entries and the longer prefix leave. |
| Spaces.LeftFitsWhenMoved | integrated_vmcache/integrated_vmcache.cpp:987-1027 | It is enough that the suffix is no longer than the slots, keys and payloads that move right. |
| Spaces.TameFits | integrated_vmcache/integrated_vmcache.cpp:987-1027 | A leaf does not overflow unless some key is more than a slot longer than the next one, which ends where the two first differ: otherwise the separator is truncated, or what moves out makes room. |
| Spaces.FixedLengthFits | integrated_vmcache/integrated_vmcache.cpp:987-1027 | So leaves whose keys have one length never overflow. |
| Spaces.LeftCanOverflow | integrated_vmcache/integrated_vmcache.cpp:987-1027 | A legal leaf with keys of at most 64 bytes that fits its page, has no room for a key of one byte and whose left half does not fit: the code writes below its slots here. |
| Spaces.MergeBound | integrated_vmcache/integrated_vmcache.cpp:898-904 | `spaceUpperBound` is above the merged size by exactly the two fences that disappear, so an accepted merge fits. |
| Spaces.OneEntryRoom | integrated_vmcache/integrated_vmcache.cpp:717-733 | A node with at most one entry has room for another legal one (for separators: of keys up to 989 bytes). |
| Spaces.FullLeaf | integrated_vmcache/integrated_vmcache.cpp:717-733 | A leaf without room for a legal entry has at least two entries. |
| Spaces.FullInner | integrated_vmcache/integrated_vmcache.cpp:717-733 | An inner node without room for a separator has at least one entry, and at least two when keys have at most 989 bytes. |
| Spaces.FullRoot | integrated_vmcache/integrated_vmcache.cpp:717-733 | A root, which has no fences, without room has at least three entries. |
| Spaces.FullShortLeaf | integrated_vmcache/integrated_vmcache.cpp:717-733 | With keys and fences of at most 64 bytes, a leaf without room for a legal entry has at least three entries. |
| Spaces.SepSlotAllowed | integrated_vmcache/integrated_vmcache.cpp:989-990 | The separator of a leaf with three entries, or an inner node with two, is at a slot that `splitNode` asserts: above 0 and below 512. |
| Layouts.FreeIsRoom | integrated_vmcache/integrated_vmcache.cpp:727-733 | `freeSpaceAfterCompaction` is the room left beside what the node needs, and `freeSpace` is never more. |
| Layouts.StoreLaid | integrated_vmcache/integrated_vmcache.cpp:917-934 | Storing an entry keeps the accounting exact and the live byte ranges disjoint, and puts exactly that entry into the node. |
| Layouts.DropLaid | integrated_vmcache/integrated_vmcache.cpp:851-859 | Removing a slot keeps the accounting exact and takes exactly that entry out of the node. |
| Layouts.PayOverLaid | integrated_vmcache/integrated_vmcache.cpp:907-908 | Overwriting a payload with one of the same length changes that payload alone. |
| Layouts.FencedLaid | integrated_vmcache/integrated_vmcache.cpp:969-985 | Fences on an empty page: they read back, share the recorded prefix, and no byte is wasted. |
| Layouts.AppendStep | integrated_vmcache/integrated_vmcache.cpp:936-967 | One more copied entry: there was room for it, and the page holds one more of the wanted entries. |
| Layouts.RefreshEnough | integrated_vmcache/integrated_vmcache.cpp:752-760 | The hints that `updateHint` skips point at slots the insert has not moved. |
| Searches.PrefixDecides | integrated_vmcache/integrated_vmcache.cpp:784-791 | Comparing with the page's prefix decides for keys that do not start with it: they lie before or behind the whole page. |
| Searches.SuffixOrder | integrated_vmcache/integrated_vmcache.cpp:792-826 | Comparing suffixes is comparing keys. |
| Searches.HeadDecides | integrated_vmcache/integrated_vmcache.cpp:804-807 | Different heads decide the order of keys. |
| Searches.HintsAscend | integrated_vmcache/integrated_vmcache.cpp:745-760 | The hints ascend. |
| Searches.HintBracket | integrated_vmcache/integrated_vmcache.cpp:762-777 | The range that `searchHint` narrows the search to contains the lower bound. |
| Searches.BracketClosed | integrated_vmcache/integrated_vmcache.cpp:801-826 | When the searched range has closed, it is the lower bound, and the key is not on the page. |
| Pages.BTreeNode.constructor | integrated_vmcache/integrated_vmcache.cpp:719 | An empty page without fences. |
| Pages.BTreeNode.MakeHint | integrated_vmcache/integrated_vmcache.cpp:745-750 | All hints equal the heads at their distances. |
| Pages.BTreeNode.UpdateHint | integrated_vmcache/integrated_vmcache.cpp:752-760 | The partial refresh after an insert makes all hints right, if those it may skip were. |
| Pages.BTreeNode.SearchHint | integrated_vmcache/integrated_vmcache.cpp:762-777 | The narrowed range contains the lower bound of every key with the page's prefix. |
| Pages.BTreeNode.LowerBound | integrated_vmcache/integrated_vmcache.cpp:779-827 | Prefix cut, heads, hints and binary search give slot and flag of `Lookups.Search` for the bytes that follow the key and the page, and so the lexicographic lower bound and the right found flag for every key whose comparisons are clear. |
| Pages.BTreeNode.CompareAt | integrated_vmcache/rte_string.hh:1220-1339 | Comparing a key with bytes of the heap reads on behind both as the code does. |
| Pages.BTreeNode.BisectSlots | integrated_vmcache/integrated_vmcache.cpp:801-826 | The binary search, with every comparison it makes. |
| Lookups.ExactIffHarmless | integrated_vmcache/integrated_vmcache.cpp:779-827 | A search gives the lower bound and the right flag for all bytes behind the key if and only if every comparison it makes is harmless: those that read on cannot turn the wrong way. |
| Lookups.AllFoundIff | integrated_vmcache/integrated_vmcache.cpp:779-827 | A page finds all its keys at their slots, whatever follows them in the buffer, if and only if no stored length is one of those that read on, and the prefix is not either, or the memory behind it decides for it. |
| Lookups.LostKey | integrated_vmcache/integrated_vmcache.cpp:779-827 | A legal page with one key of 65 bytes that it does not find when high bytes follow the key in the caller's buffer. |
| Lookups.HarmlessExact | integrated_vmcache/integrated_vmcache.cpp:779-827 | Harmless comparisons lead to the lower bound and the right flag. |
| Lookups.ClearHarmless | integrated_vmcache/integrated_vmcache.cpp:779-827 | Comparisons that do not depend on bytes behind either operand are harmless. |
| Lookups.NarrowRight | integrated_vmcache/integrated_vmcache.cpp:762-777 | The range left by the hints encloses the lower bound of every key with the prefix of the page. |
| Reads.RawRange | integrated_vmcache/rte_string.hh:1219-1339 | If a comparison falls, or rises, with any bytes behind the key, it does with zeros, or with high bytes. |
| Reads.ShortSearchable | integrated_vmcache/rte_string.hh:1258-1284 | Keys of at most 64 bytes can be searched for in any node. |
| Reads.ShortNodeSearchable | integrated_vmcache/rte_string.hh:1258-1284 | Nodes with keys and fences of at most 64 bytes can be searched for any key. |
| Reads.SplitUnfits | integrated_vmcache/integrated_vmcache.cpp:987-1027 | Splitting a leaf in which no comparison with a stored suffix reads on can give a left half in which one does. |
| LongReads.LookupRight | integrated_vmcache/integrated_vmcache.cpp:1133-1165 | In a tree with keys of any length, a lookup by searches that may read on says what the map says, if every node on the way can be searched for the key. |
| LongReads.LookupByLengths | integrated_vmcache/integrated_vmcache.cpp:1133-1165 | So it does if no length compared on the way is one that reads on. |
| Pages.BTreeNode.StoreKeyValue | integrated_vmcache/integrated_vmcache.cpp:917-934 | The suffix and payload go right below the heap and slot `slotId` describes them; no other byte or slot changes. |
| Pages.BTreeNode.RemoveSlot | integrated_vmcache/integrated_vmcache.cpp:851-859 | The page stands for the node without that entry, and all its invariants hold. |
| Pages.BTreeNode.WritePayload | integrated_vmcache/integrated_vmcache.cpp:736-738 | The page stands for the node with that payload replaced. |
| Pages.BTreeNode.SetFences | integrated_vmcache/integrated_vmcache.cpp:969-985 | The page becomes the empty page between the two fences, with the prefix they share. |
| Pages.BTreeNode.CopyKeyValueRange | integrated_vmcache/integrated_vmcache.cpp:936-967 | The destination gets exactly the entries of the range, in order and cut to its own prefix, whether the prefix grows or shrinks. |
| Pages.BTreeNode.CopyLonger | integrated_vmcache/integrated_vmcache.cpp:938-951 | One entry copied in one piece when the prefix grows is stored as if key and payload had been stored anew. |
| Pages.BTreeNode.CopyKeyValue | integrated_vmcache/integrated_vmcache.cpp:960-967 | One entry put together again when the prefix shrinks. |
| Pages.BTreeNode.CopyNode | integrated_vmcache/integrated_vmcache.cpp:870-873 | Page contents and hints are taken over whole. |
| Pages.BTreeNode.Compactify | integrated_vmcache/integrated_vmcache.cpp:875-886 | The node stays the same, and afterwards all free space is in one piece, as much as was announced. |
| Pages.BTreeNode.InsertInPage | integrated_vmcache/integrated_vmcache.cpp:836-849 | The page stands for the node with the entry inserted in order; it is compacted first if needed, and all its invariants hold. |
| Pages.BTreeNode.GetChild | integrated_vmcache/integrated_vmcache.cpp:738 | The child the node has at that slot. |
| Pages.BTreeNode.LookupInner | integrated_vmcache/integrated_vmcache.cpp:1090-1096 | The child whose gap contains the key. |
| Pages.BTreeNode.AddSeparator | integrated_vmcache/integrated_vmcache.cpp:1001-1010 | The parent gets the separator with the left page before it and the new page behind it. |
| Pages.BTreeNode.LeftHalf | integrated_vmcache/integrated_vmcache.cpp:998-1024 | A valid page that stands for the left half. |
| Pages.BTreeNode.RightHalf | integrated_vmcache/integrated_vmcache.cpp:999-1025 | A valid page that stands for the right half. |
| Pages.BTreeNode.SplitNode | integrated_vmcache/integrated_vmcache.cpp:987-1027 | This page, the new page and the parent stand for the left half, the right half and the parent with the separator, and all three are valid pages. |
| Pages.BTreeNode.DropChild | integrated_vmcache/integrated_vmcache.cpp:907-909 | The parent page loses one slot and the right leaf. |
| Pages.BTreeNode.MergeNodes | integrated_vmcache/integrated_vmcache.cpp:888-915 | Refuses exactly when the bound is above the page size; otherwise a leaf stands for the merged leaf and its parent for the parent without the right leaf. Inner nodes report success and change nothing. |
| Pages.PrefixShrinks | integrated_vmcache/integrated_vmcache.cpp:898-900 | The merged fences share no more than either leaf's fences, so the unsigned growth terms do not wrap. |
| Pages.JoinBound | integrated_vmcache/integrated_vmcache.cpp:898-904 | The bound computed from the page fields is the bound on nodes, and below the page size it means that the merged leaf fits. |
| Pages.EntryBytes | integrated_vmcache/integrated_vmcache.cpp:938-951 | The bytes behind a slot are the rest of the key and the payload, whatever prefix is cut. |
| Pages.BTreeNode.CommonPrefix | integrated_vmcache/integrated_vmcache.cpp:1035-1045 | Length of what two stored suffixes share. |
| Pages.BTreeNode.BestSlot | integrated_vmcache/integrated_vmcache.cpp:1056-1073 | The loop over slots finds the slot of the definition by first change. |
| Pages.BTreeNode.FindSeparator | integrated_vmcache/integrated_vmcache.cpp:1047-1082 | The separator of the node the page stands for. |
| Pages.BTreeNode.GetSep | integrated_vmcache/integrated_vmcache.cpp:1084-1088 | Its bytes. |
| Trees.EmptySound | integrated_vmcache/integrated_vmcache.cpp:1248-1253 | A new tree is sound and stands for the empty map. |
| Trees.RouteFits | integrated_vmcache/integrated_vmcache.cpp:1123-1131 | The child an inner node leads to exists, is one level lower, and its fences contain the key. |
| Trees.RouteBack | integrated_vmcache/integrated_vmcache.cpp:1123-1131 | The only way into a child's range is the child's slot. |
| Trees.CoverUnique | integrated_vmcache/integrated_vmcache.cpp:645-656 | Two pages of one level whose fences contain the same key are the same page. |
| Trees.LeafWrite | integrated_vmcache/integrated_vmcache.cpp:1308-1380 | Changing what a leaf answers for one key within its fences keeps the tree sound and changes the map at that key alone. |
| Trees.GrowRootSound | integrated_vmcache/integrated_vmcache.cpp:1260-1267 | A new root above the old one keeps the tree sound and its map. |
| Trees.SplitSound | integrated_vmcache/integrated_vmcache.cpp:1269-1277 | A split keeps the tree sound (ranges tile, levels fit, leaves linked in key order) and its map. |
| Trees.MergeSound | integrated_vmcache/integrated_vmcache.cpp:1361-1371 | A merge keeps the tree sound and its map, and takes exactly the right leaf out of the tree and out of the chain of leaves. |
| TreeSteps.PutKeeps | integrated_vmcache/integrated_vmcache.cpp:1323-1329 | Inserting into the leaf with room keeps every invariant, sizes included, for the map with the new key. |
| TreeSteps.SetKeeps | integrated_vmcache/integrated_vmcache.cpp:1170-1187 | Updating in place keeps every invariant for the updated map. |
| TreeSteps.DelKeeps | integrated_vmcache/integrated_vmcache.cpp:1372-1376 | Removing keeps every invariant for the map without the key. |
| TreeSteps.GrowKeeps | integrated_vmcache/integrated_vmcache.cpp:1260-1267 | A new root keeps every invariant and has room for any separator. |
| TreeSteps.SplitKeeps | integrated_vmcache/integrated_vmcache.cpp:1269-1277 | A split under a parent with room keeps every invariant if the left half fits. |
| TreeSteps.SplitProgress | integrated_vmcache/integrated_vmcache.cpp:1257-1338 | The half on the way to the key has strictly fewer entries, and this outweighs what the parent gains in a measure over the whole path. |
| TreeSteps.GrowProgress | integrated_vmcache/integrated_vmcache.cpp:1257-1338 | So it does when the root is split under a new root. |
| TreeSteps.MergeKeeps | integrated_vmcache/integrated_vmcache.cpp:1361-1371 | An accepted merge keeps every invariant, sizes included. |
| BTrees.TameNeverOverflows | integrated_vmcache/integrated_vmcache.cpp:987-1027 | In a tree over keys no two of which are like that, no leaf can overflow when split. |
| BTrees.FixedLengthNeverOverflows | integrated_vmcache/integrated_vmcache.cpp:987-1027 | So in a tree over keys of one length. |
| TableTrees.FoldedTame | integrated_vmcache/tpcc/Schema.hpp:131-140 | Of two folded keys of the same fields, without zero bytes in texts, the larger one has a byte behind the first difference, or is no shorter. |
| TableTrees.TableNeverOverflows | integrated_vmcache/integrated_vmcache.cpp:987-1027 | In a tree over the folded keys of any one list of fields no leaf can overflow when split, customers by name included. |
| BTrees.MergeMeans | integrated_vmcache/integrated_vmcache.cpp:1360-1371 | The conditions the code looks at on the locked pages are those of a merge that is due for the key. |
| BTrees.UnderAdvances | integrated_vmcache/integrated_vmcache.cpp:1274-1277 | A split under a parent with room is an advance of the insert. |
| BTrees.RootAdvances | integrated_vmcache/integrated_vmcache.cpp:1260-1277 | So is a split of the root. |
| BTrees.AboveAdvances | integrated_vmcache/integrated_vmcache.cpp:1279-1282 | So is a split further up, when the parent has no room. |
| BTrees.BTree.constructor | integrated_vmcache/integrated_vmcache.cpp:1248-1253 | An empty tree for the empty map. |
| BTrees.BTree.Descend | integrated_vmcache/integrated_vmcache.cpp:1123-1131 | Ends at the leaf for the key, or at the wanted page on the way there, with the parent and slot it came from. That the pages on the way are searched exactly is `Links.SearchAllowed`. |
| BTrees.BTree.Lookup | integrated_vmcache/integrated_vmcache.cpp:1133-1165 | What the map says for the key; stored keys have at most 64 bytes, the searched one may have any length. |
| BTrees.BTree.UpdateInPlace | integrated_vmcache/integrated_vmcache.cpp:1170-1187 | Reports whether the key is there and updates the map at that key alone. |
| BTrees.BTree.SplitNode | integrated_vmcache/integrated_vmcache.cpp:987-1027 | Exactly one split under the given parent; it fails exactly if the left half does not fit or no page is left. |
| BTrees.BTree.GrowRoot | integrated_vmcache/integrated_vmcache.cpp:1260-1267 | The tree with one more level. |
| BTrees.BTree.TrySplit | integrated_vmcache/integrated_vmcache.cpp:1257-1283 | Exactly one split on the way to the key, at the lowest page whose parent has room, and progress by the measure. |
| BTrees.BTree.EnsureSpace | integrated_vmcache/integrated_vmcache.cpp:1285-1306 | Nothing if the page has room; otherwise exactly one split at it or above it, and progress. |
| BTrees.BTree.Insert | integrated_vmcache/integrated_vmcache.cpp:1308-1338 | Terminates; the map gains exactly the new key of at most 64 bytes, or is unchanged when the pages are used up or the leaf on the way to the key is stuck: it has no room and its left half does not fit. It never succeeds in a tree that is stuck for the key, and reports the overflow if the leaf is the root. With room in the leaf the entry is put there and nothing else happens; every page id given out is a page of the tree, but for the one of a failed split. |
| BTrees.StuckStays | integrated_vmcache/integrated_vmcache.cpp:1257-1306 | A split on the way to the key leaves a stuck leaf stuck, and never is one of that leaf. |
| BTrees.StuckGoesOn | integrated_vmcache/integrated_vmcache.cpp:1257-1306 | While the leaf is stuck, all an insert can do is split above it, and only in a tree of more than one level. |
| Lopsided.LopsidedKeeps | integrated_vmcache/integrated_vmcache.cpp:987-1027 | A tree of one leaf of seven entries, legal in every respect, |
| Lopsided.LopsidedStuck | integrated_vmcache/integrated_vmcache.cpp:987-1027 | is stuck for a key of one byte. |
| Lopsided.StuckInsert | integrated_vmcache/integrated_vmcache.cpp:1308-1338 | Inserting that key overflows. |
| Links.SearchAllowed | integrated_vmcache/integrated_vmcache.cpp:779-827 | Every node of a legal tree can be searched exactly for any key. |
| Links.InsertAllowed | integrated_vmcache/integrated_vmcache.cpp:836-849 | Inserting into the leaf for a new key is what the page allows. |
| Links.EntryAllowed | integrated_vmcache/integrated_vmcache.cpp:851-868 | The slot of a stored key in its leaf, for updates and removals. |
| Links.SplitAllowed | integrated_vmcache/integrated_vmcache.cpp:987-1027 | Cutting a node whose left half fits, under a parent with room, is what the pages of both allow. |
| Links.MergeAllowed | integrated_vmcache/integrated_vmcache.cpp:888-915 | Merging the two leaves that the code picks is what their pages allow, and the bound on the pages is the one on the nodes. |
| BTrees.BTree.MergeNodes | integrated_vmcache/integrated_vmcache.cpp:888-915 | Merges exactly when the bound allows it. |
| BTrees.WorthMeans | integrated_vmcache/integrated_vmcache.cpp:1354-1371 | In sizes: two leaves are merged if and only if what is left of the first takes a quarter of the page at most, it has a right sibling before the parent's last child, that one takes at most three quarters, and both together fit with the two fences that go. |
| BTrees.BTree.Remove | integrated_vmcache/integrated_vmcache.cpp:1340-1380 | Reports whether the key was there, the map loses exactly that key, and the tree is the old one without the entry, with the two leaves merged exactly when their sizes allow it (`BTrees.WorthMerging`); nothing else changes. |
| BTrees.BTree.ScanAsc | integrated_vmcache/integrated_vmcache.cpp:1204-1221 | The entries from the key upwards in strictly ascending order, without gaps or repeats, until the callback says stop; it terminates. |
| BTrees.BTree.ScanDesc | integrated_vmcache/integrated_vmcache.cpp:1223-1243 | The entries from the key downwards in strictly descending order, without gaps or repeats, across empty leaves and with the adapter's skip of the first entry; it terminates. |
| Scans.AscVisit | integrated_vmcache/integrated_vmcache.cpp:1209-1213 | Visiting a slot reports the next entry in order. |
| Scans.AscNext | integrated_vmcache/integrated_vmcache.cpp:1214-1219 | Following the link of a leaf continues right behind it, at a leaf not visited before. |
| Scans.AscDone | integrated_vmcache/integrated_vmcache.cpp:1204-1221 | A scan that stops has reported the ascending entries from the key. |
| Scans.FenceLeaf | integrated_vmcache/integrated_vmcache.cpp:1238-1241 | The leaf found for a lower fence is another leaf, and ends exactly at that fence. |
| Scans.DescVisit | integrated_vmcache/integrated_vmcache.cpp:1232-1237 | Visiting a slot downwards reports the next entry in descending order. |
| Scans.DescNext | integrated_vmcache/integrated_vmcache.cpp:1238-1241 | Searching the lower fence continues right below the leaf, at a leaf not visited before. |
| Scans.DescDone | integrated_vmcache/integrated_vmcache.cpp:1402-1419 | A scan that stops has reported the descending entries from the key. |
| OlcProofs.NextGood | integrated_vmcache/integrated_vmcache.cpp:1123-1380 | Every atomic step of any thread in a descent, a lock upgrade, a retry, an allocation, a write or a release keeps the invariant of tree, pages, sizes, locks and threads, unless it splits a leaf whose left half does not fit or stores a key twice. |
| OlcProofs.NextSpoiled | integrated_vmcache/integrated_vmcache.cpp:987-1027 | Those steps do go wrong. |
| OlcProofs.LeftFitsUnless | integrated_vmcache/integrated_vmcache.cpp:987-1027 | A split whose left half does not fit is one whose separator is a full key with a suffix longer than the slack, a test on the page before the split. |
| OlcProofs.FullCuttable | integrated_vmcache/integrated_vmcache.cpp:987-1088 | A page that is split for want of room has the entries that `findSeparator` asserts, and its separator is at a slot that `splitNode` asserts. |
| Linear.FreshAtRest | integrated_vmcache/integrated_vmcache.cpp:1248-1253 | The state after building the tree, with any number of idle threads, is one that runs may start from. |
| Linear.RunGood | integrated_vmcache/integrated_vmcache.cpp:1123-1380 | The invariant holds in every state of every interleaving with legal calls and no such step. |
| Linear.NeverCrashes | integrated_vmcache/integrated_vmcache.cpp:1123-1380 | In no state of such a run has an assertion on the entries of a split page or on its slot failed, an unknown page been followed, a slot been written that is not there or a page overflowed, and the tree always stands for the map. |
| Linear.CrashesExactly | integrated_vmcache/integrated_vmcache.cpp:987-1338 | With legal calls, a run goes wrong if and only if one of its steps splits a leaf whose left half does not fit, or stores a key twice. |
| CleanRuns.CleanRunSafe | integrated_vmcache/integrated_vmcache.cpp:1123-1380 | If the keys of the tree and of all inserts are tame, and no key is inserted twice or is there at the start, no interleaving of any calls goes wrong. |
| TableTrees.TableRunSafe | integrated_vmcache/integrated_vmcache.cpp:1123-1380 | So no interleaving goes wrong on the tree of any table of the schema, as long as texts in keys hold no zero byte and no row is inserted twice. |
| CleanRuns.PutAbsent | integrated_vmcache/integrated_vmcache.cpp:1308-1338 | In such runs an insert that has not taken effect finds its key absent. |
| CleanRuns.MapMoves | integrated_vmcache/integrated_vmcache.cpp:1123-1380 | The map only changes in steps in which some operation takes effect. |
| Linear.LookupLinearizable | integrated_vmcache/integrated_vmcache.cpp:1123-1165 | In every careful run, what a finished lookup returns is what the map said for the key, or its absence, at some moment between call and return, under any interleaving with inserts, splits, removals and merges; and it changes nothing. |
| Linear.InsertOnce | integrated_vmcache/integrated_vmcache.cpp:1308-1338 | A finished insert has changed the map in exactly one step, from a moment when its key was absent. |
| Linear.ChangeOnce | integrated_vmcache/integrated_vmcache.cpp:1170-1187 | A finished update (and likewise a removal) found the key and changed the map in exactly one step, to the function of the payload it found, or saw the key absent at some moment and changed nothing. |
| Solo.AnswerAlone | integrated_vmcache/integrated_vmcache.cpp:1133-1187 | From every world at rest, with any readers and marks but no evicted page, every lookup has a run of its own thread alone that ends with what the map says for its key, and so has every update and removal of an absent key; tree and map stay as they are, and the world is at rest again. |
| Solo.ChangeAlone | integrated_vmcache/integrated_vmcache.cpp:1170-1380 | Every update and removal of a present key, and every insert of a new one that its leaf has room for, has a run of its own thread alone that returns what the key stood for and leaves the map with exactly that change, at rest again; it is only asked that nobody holds the leaf shared and its version is not the last. |
| SoloInserts.Pass | integrated_vmcache/integrated_vmcache.cpp:1257-1306 | When the page at the end of its trip is full, a thread alone locks it and its parent and splits it, under a new root if it was the root; or, if the parent has no room for the separator, gives up, makes room there in the same way and comes back: one split at the lowest page whose parent has room, and less is left to do. |
| SoloInserts.InsertAlone | integrated_vmcache/integrated_vmcache.cpp:1308-1338 | From every world at rest whose pages nobody holds, every insert of a new key has a run of its own thread alone that returns with the key in the map and nothing else changed, however many splits and new roots that takes, if the keys are tame and versions and page ids last for the splits. |
| SoloMerges.MergeAlone | integrated_vmcache/integrated_vmcache.cpp:1340-1380 | And every removal of a key whose leaf has a right sibling under its parent has a run that locks the three pages, removes the entry and merges the leaves exactly when the bound on the merged size allows it; the map loses that key alone. |
| Solo.MayWrite | integrated_vmcache/integrated_vmcache.cpp:1170-1187 | The holder of a leaf may write anything to it before it is done, and then every read of the page that is under way is torn. |
| Solo.MayMisread | integrated_vmcache/integrated_vmcache.cpp:205-292 | A torn read may yield any decision at all. |
| Solo.MayInterfere | integrated_vmcache/integrated_vmcache.cpp:77-140 | Other holders, eviction and fault handling may take every lock step that the protocol admits. |
| SoloInserts.MayWritePair | integrated_vmcache/integrated_vmcache.cpp:987-1027 | The same for the pages of a split or a merge. |
| SoloInserts.MayBackOff | integrated_vmcache/integrated_vmcache.cpp:309-329 | When the version of the child has moved on, the holder of the parent lets go. |
| Graphs.DistanceIsFirstBall | bfs/bfs_kernel.hpp:86-113 | The length of a shortest walk is the number of the first ball around the root that contains the vertex. |
| Graphs.BallFull | bfs/bfs_kernel.hpp:106-108 | Once a ball stops growing it contains everything reachable. |
| Bfs.ShallowMeans | bfs/bfs_kernel.hpp:17 | The graphs whose distances fit a level are exactly those with distances below 65535. |
| Bfs.ChunkCovers | bfs/bfs_kernel.hpp:88-95 | The chunk size rounded up covers the frontier: every slot lies in the chunk of one of the threads, and of no other. |
| Bfs.Spawn | bfs/bfs_kernel.hpp:92-98 | The chunks of the started threads partition the frontier: every slot belongs to exactly one. |
| Bfs.TakeStep | bfs/bfs_kernel.hpp:48-51 | A winning compare-and-swap writes the next level and puts the vertex on exactly one list. |
| Bfs.LevelDone | bfs/bfs_kernel.hpp:100-111 | When all threads are done, exactly the next ball has levels, and the next frontier holds its new vertices once each. |
| Bfs.RunLevel | bfs/bfs_kernel.hpp:40-61 | One level under any interleaving of the threads: levels exact up to the next distance, and the next frontier is its shell. |
| Bfs.InitBfs | bfs/bfs_kernel.hpp:19-24 | All levels are infinite and all words of the bitmap are cleared, and no more. |
| Bfs.RunBfs | bfs/bfs_kernel.hpp:64-117 | For any graph with distances below 65535, any positive number of threads and any interleaving, levels are exactly the shortest distances, unreached vertices stay infinite, and the result is the largest finite level. |
| Sweep.BitInside | bfs/utility/bitmap.hpp:24-42 | A vertex has its bit within the words of the bitmap. |
| Sweep.StepThread | bfs/bfs_kernel.hpp.omp:77-85 | One atomic read or write of a thread keeps the sweep's invariant, even when bits written by other threads are lost. |
| Sweep.SweepDone | bfs/bfs_kernel.hpp.omp:73-88 | When all threads are done, exactly the next ball has levels, and the flag says whether a vertex was found. |
| Sweep.RunSweep | bfs/bfs_kernel.hpp.omp:73-88 | One sweep under any interleaving and any static partition. |
| Sweep.RunBfs | bfs/bfs_kernel.hpp.omp:60-96 | The dense form gives exactly the shortest distances and returns the largest one. |
| Sweep.SameLevels | bfs/bfs_kernel.hpp.omp:60-96 | The dense form and the frontier form give the same levels, whatever the schedules and thread counts. |
| Blocks.CmpFfd | integrated_vmcache/rte_string.hh:894-906 | The first bit in which two masks differ, or -1 for equal ones. |
| Blocks.CmpFfdb | integrated_vmcache/rte_string.hh:908-920 | The difference of the first unequal bytes. |
| Blocks.Cmp16 | integrated_vmcache/rte_string.hh:922-948 | The difference of the first unequal bytes of two 16-byte blocks. |
| Blocks.CmpMask | integrated_vmcache/rte_string.hh:1063-1076 | Signed comparisons in both directions, their masks and the first differing bit find the first unequal byte of a register. |
| Blocks.CmpTwo | integrated_vmcache/rte_string.hh:1030-1153 | The difference of the first unequal bytes of two registers in a row. |
| Blocks.Cmp64s | integrated_vmcache/rte_string.hh:1159-1203 | The difference of the first unequal bytes of a row of 64-byte blocks. |
| Blocks.CmpRegular | integrated_vmcache/rte_string.hh:954-1020 | The difference of the first unequal bytes of fewer than 16. |
| Blocks.CmpUpTo512 | integrated_vmcache/rte_string.hh:1286-1323 | The remainder after blocks of 512, with the overlapping last block. |
| Blocks.Memcmp | integrated_vmcache/rte_string.hh:1219-1339 | For every length, the difference of the first unequal bytes among those it reads. |
| Blocks.MemcmpExact | integrated_vmcache/rte_string.hh:1258-1284 | This is the difference within the first `n` bytes if and only if `n` is not in 65..79 or 97..111, or those bytes differ, or the bytes behind them are equal. |
| Blocks.OverReadExample | integrated_vmcache/rte_string.hh:1258-1268 | 65 equal bytes compare as unequal when the byte behind them differs. |
| Copies.CopySmall | integrated_vmcache/rte_string.hh:376-396 | Up to 15 bytes, one store for each bit of the length. |
| Copies.CopyBack31 | integrated_vmcache/rte_string.hh:427-444 | The rest of a copy: at most 128 bytes, and the last store reaches back without leaving the target. |
| Copies.CopyLarge | integrated_vmcache/rte_string.hh:450-472 | Long copies: an aligning first store, blocks of 128 and the rest. |
| Copies.CopyGeneric | integrated_vmcache/rte_string.hh:364-473 | Exactly `n` bytes are copied and no byte outside the target changes, for every length and alignment. |
| Copies.CopyAligned | integrated_vmcache/rte_string.hh:801-859 | The same for aligned buffers. |
| Copies.Memcpy | integrated_vmcache/rte_string.hh:861-868 | The same, whichever of the two is chosen. |
| Folding.BigEndianOrder | integrated_vmcache/tpcc/Types.hpp:79-95 | Numbers of one width are ordered like their big-endian bytes. |
| Folding.BigEndianRoundTrip | integrated_vmcache/tpcc/Types.hpp:105-121 | Big-endian bytes read back as the number. |
| Folding.CodeOrder | integrated_vmcache/tpcc/Types.hpp:78-103 | The code of a field is prefix-free and keeps the order of its values, for signed and unsigned numbers and for texts without zero bytes. |
| Folding.CodeSamples | integrated_vmcache/tpcc/Types.hpp:78-103 | The codes of some values byte by byte: top bit flipped for signed numbers, highest byte first, a zero byte behind a text. |
| Folding.CodeRoundTrip | integrated_vmcache/tpcc/Types.hpp:105-131 | Unfolding a field undoes folding it, whatever follows, and consumes exactly its code. |
| Folding.TextSurvives | integrated_vmcache/tpcc/Types.hpp:123-131 | A text survives folding and unfolding if and only if it has no zero byte. |
| Folding.ZeroByteBreaksOrder | integrated_vmcache/tpcc/Types.hpp:97-103 | Two keys whose order folding turns around. |
| Folding.FoldOrder | integrated_vmcache/tpcc/Schema.hpp:131-140 | Byte order of folded keys is field-by-field order of the keys, for any list of fields and all keys in which only texts at the end hold zero bytes. |
| Folding.FoldOrderExact | integrated_vmcache/tpcc/Schema.hpp:131-140 | A list of fields keeps the order for all keys if and only if nothing that can vary follows a text. |
| Folding.SchemaOrder | integrated_vmcache/tpcc/Schema.hpp:10-397 | Of the tables of the schema, all but the customers by name keep the order for all keys. |
| Folding.FoldRoundTrip | integrated_vmcache/tpcc/Schema.hpp:141-150 | Unfolding a folded key gives the key back if and only if no text in it holds a zero byte. |
| Folding.FoldLength | integrated_vmcache/tpcc/Schema.hpp:151 | A folded key is never longer than `maxFoldLength`. |
| Folding.SchemaKeys | integrated_vmcache/tpcc/Schema.hpp:10-397 | The keys of every table of the schema fold to between 4 and 44 bytes: never the empty key, and short enough for exact comparisons. |
| Folding.FoldKey | integrated_vmcache/tpcc/Schema.hpp:131-140 | Writes exactly the folded key into the buffer. |
| Folding.UnfoldKey | integrated_vmcache/tpcc/Schema.hpp:141-150 | Reads the fields back, or fails where the decoder does. |
| Twister.MersenneTwister.Init | integrated_vmcache/tpcc/RandomGenerator.hpp:51-56 | The first 312 elements from the seed. |
| Twister.MersenneTwister.Regenerate | integrated_vmcache/tpcc/RandomGenerator.hpp:64-78 | Regenerating in place turns any 312 consecutive elements into the next 312, although old and new words are mixed. |
| Twister.MersenneTwister.Rnd | integrated_vmcache/tpcc/RandomGenerator.hpp:58-88 | The call number `t`, counted from 0, returns the tempered element 312 + t, for every t. |
| TwisterOutputs.FirstOutputs | integrated_vmcache/tpcc/RandomGenerator.hpp:51-88 | The first outputs for the default seed 5489, as the standard generator gives them. |
| TableProofs.DeliveredChange | integrated_vmcache/tpcc/TPCCWorkload.hpp:351-365 | If one order of a district changes, a customer's delivered amount changes by what was delivered of that order. |
| TableProofs.SendGrows | integrated_vmcache/tpcc/TPCCWorkload.hpp:351-365 | The sum credited to the customer is exactly what the order's delivered amount grows by: it was zero, also for the loaded order 2100. |
| TableProofs.OldestQueued | integrated_vmcache/tpcc/TPCCWorkload.hpp:270-284 | The first queued order the scan finds is the start of the interval of queued orders. |
| TableProofs.NewOrderKeeps | integrated_vmcache/tpcc/TPCCWorkload.hpp:140-236 | A new order keeps all consistency conditions and all gaps. |
| TableProofs.CollectKeeps | integrated_vmcache/tpcc/TPCCWorkload.hpp:581-600 | So does adding an amount to the totals of a warehouse and one of its districts. |
| TableProofs.CreditKeeps | integrated_vmcache/tpcc/TPCCWorkload.hpp:607-647 | So does crediting a customer and recording the payment. |
| TableProofs.PayKeeps | integrated_vmcache/tpcc/TPCCWorkload.hpp:562-648 | So does a payment by customer number. |
| TableProofs.PayByNameKeeps | integrated_vmcache/tpcc/TPCCWorkload.hpp:650-764 | So does a payment by name, including the early return that has collected the money already. |
| TableProofs.DeliverOneKeeps | integrated_vmcache/tpcc/TPCCWorkload.hpp:267-367 | So does a delivery in one district. |
| TableProofs.DeliverKeeps | integrated_vmcache/tpcc/TPCCWorkload.hpp:267-367 | So does a delivery in all districts. |
| TableProofs.RunKeeps | integrated_vmcache/tpcc/TPCCWorkload.hpp:140-764 | All conditions and gaps hold in every state of every run that starts with them. |
| TableProofs.LoadedConsistent | integrated_vmcache/tpcc/TPCCWorkload.hpp:842-922 | The loaded tables meet the conditions, although order 2100 is delivered and queued at once. |
| TableProofs.LoadedRun | integrated_vmcache/tpcc/TPCCWorkload.hpp:140-922 | From the loaded tables, in every state: order numbers run up to the next one, queued orders are an interval that ends there, orders have exactly their lines, balances are delivered amounts less payments, districts exceed their warehouse by 27,000,000, and balance plus yearly payments is 9 short of the delivered amount. |
| Tpcc.PriceLine | integrated_vmcache/tpcc/TPCCWorkload.hpp:231 | The amount of a line: price times quantity with both taxes added, less the discount. |
| Tpcc.Workload.PlaceOrder | integrated_vmcache/tpcc/TPCCWorkload.hpp:140-236 | The tables after a new order. |
| Tpcc.Workload.PaymentById | integrated_vmcache/tpcc/TPCCWorkload.hpp:562-648 | The tables after a payment by customer number. |
| Tpcc.Workload.PaymentByName | integrated_vmcache/tpcc/TPCCWorkload.hpp:650-764 | The tables after a payment by name; the customer is the middle one, the earlier of the two for an even number. |
| Tpcc.Workload.FirstQueued | integrated_vmcache/tpcc/TPCCWorkload.hpp:270-284 | The smallest queued order number of the district, if there is one. |
| Tpcc.Workload.DateOrder | integrated_vmcache/tpcc/TPCCWorkload.hpp:351-359 | All lines of the order get the date, and the sum is that of their amounts. |
| Tpcc.Workload.SendOrder | integrated_vmcache/tpcc/TPCCWorkload.hpp:286-365 | The tables after one order has been delivered. |
| Tpcc.Workload.Delivery | integrated_vmcache/tpcc/TPCCWorkload.hpp:267-367 | The tables after a delivery in all ten districts. |
| TableEffects.DeliverOneEffect | integrated_vmcache/tpcc/TPCCWorkload.hpp:267-367 | In consistent tables, a delivery in one district takes exactly its oldest order off the queue, gives it the carrier and its lines the date, and its customer the sum of the lines and one more delivery; without a queued order it does nothing, and nothing else changes. |
| TableEffects.DeliverEffect | integrated_vmcache/tpcc/TPCCWorkload.hpp:267-367 | A delivery does this in the ten districts of its warehouse, and in no other. |
| TableEffects.NewOrderEffect | integrated_vmcache/tpcc/TPCCWorkload.hpp:140-236 | A new order uses up the next number of its district: it is queued, belongs to the customer, has no carrier, and its lines are the requested items and quantities at their price with taxes and discount, not delivered; nothing else changes. |
| TableEffects.PayEffect | integrated_vmcache/tpcc/TPCCWorkload.hpp:562-648 | Warehouse and district take the amount; the customer owes it less, has paid it this year and counts a payment, which is the newest of the history; nothing else changes. |
| TableEffects.PayByNameEffect | integrated_vmcache/tpcc/TPCCWorkload.hpp:650-764 | Of the customers with the name the one pays that has as many before as behind it, or one fewer; without one, only warehouse and district take the amount. |
| Tpcc.Workload.LoadOrders | integrated_vmcache/tpcc/TPCCWorkload.hpp:871-902 | The loader leaves the district in the loaded state and touches no other district; each order has its customer, its carrier (none from 2101 on) and its lines, whose item, quantity, amount and date are those picked for it. |

## Left out

- Pages.BTreeNode.LowerBound: the method promises what the modelled comparisons give, over-reads included, and the exact lower bound for keys whose comparisons are clear; which other searches are right is `Lookups.ExactIffHarmless`.
- Pages.BTreeNode.LookupInner: the child for the key is promised when no comparison depends on bytes behind the keys.
- Pages.BTreeNode.InsertInPage: only for keys whose comparisons on the page do not depend on bytes behind them; the same holds of AddSeparator and SplitNode for separators. `Links` proves this of every insert and split of a tree.
- Pages.BTreeNode.AddSeparator: see InsertInPage.
- Pages.BTreeNode.SplitNode: only when the left half fits its page (`Spaces.LeftFits`); otherwise the code writes over its slots, which the page model does not follow. The same holds of LeftHalf and RightHalf.
- Pages.BTreeNode.LeftHalf: see SplitNode.
- Pages.BTreeNode.RightHalf: see SplitNode.
- BTrees.BTree.Insert: the key must be absent and not empty, as the code assumes without a check, and have at most 64 bytes, because longer ones need not be found again (`Lookups.LostKey`), and lengths that avoid the over-read are not kept by splits (`Reads.SplitUnfits`); `Overflow` ends the model's call where the code would write outside the page.
- BTrees.BTree.Lookup: in trees built from such keys; `LongReads.LookupRight` is for all trees whose nodes on the way can be searched for the key.
- BTrees.BTree.UpdateInPlace: as for Lookup.
- BTrees.BTree.Remove: as for Lookup.
- BTrees.BTree.ScanAsc: as for Lookup.
- BTrees.BTree.ScanDesc: as for Lookup.
- Linear.InsertOnce: for careful runs, in which no insert finds its key present; the code leaves that to its callers. A step that stores a key twice counts as a crash, and what the tree holds after one is not modelled.
- Linear.RunGood: for runs with legal calls and no harmful step, as NextGood.
- Linear.NeverCrashes: for such runs; `Linear.CrashesExactly` says when others crash.
- Linear.LookupLinearizable: for such runs.
- Linear.ChangeOnce: for such runs.
- Solo.AnswerAlone: for threads that are left alone; under contention a lookup may restart for ever. The same holds of the other runs in `Solo`, `SoloInserts` and `SoloMerges`.
- Solo.ChangeAlone: asks that no reader holds the leaf, because an exclusive lock waits for readers.
- SoloInserts.InsertAlone: asks for tame keys, because other trees can be stuck for a key (`BTrees.StuckStays`), and for enough versions and page ids.
- SoloMerges.MergeAlone: a removal of the interleaved model may merge or not, whatever the sizes; when the code tries to merge is `BTrees.WorthMeans`.
- CleanRuns.CleanRunSafe: asks that the keys are tame and inserted once at most; a sufficient condition on the calls, where the exact one (`Linear.CrashesExactly`) is about the steps of the run.
- OlcProofs.NextGood: not for the steps that `Olc.Spoils` names; those crash (`OlcProofs.NextSpoiled`). Calls are legal: inserted keys have 1 to 64 bytes, entries at most 1024, updates keep the length of the payload.
- PageLocks.PageState.UnlockSRound: one round of the release loop; under interference no number of rounds is sure to be enough.
- Bfs.RunBfs: graphs with a distance above 65534 are excluded: no 16-bit level is right there (`Bfs.ShallowMeans`). The same holds of `Sweep.RunBfs`.
- Sweep.RunBfs: see `Bfs.RunBfs`.
- Tpcc.Workload.PlaceOrder: without stock updates and the secondary order index.
- Tpcc.Workload.PaymentById: without credit data and history text.
- Tpcc.Workload.PaymentByName: the customers with the name are given as a list; without credit data.
- Tpcc.Workload.FirstQueued: the table scan appears as its result, the least element.
- Tpcc.Workload.LoadOrders: the assignment of customers to orders is given; without the secondary index.
- Spaces.FullInner: gives two entries for keys of up to 989 bytes, and one beyond that.
- Twister.MersenneTwister.constructor: the seed offset by a global counter is a parameter.
- The class `BTree` and the interleaved tree hold nodes, not the byte pages of `Pages`; `Links` proves that the methods of the pages may be called wherever the tree works on a node.
- Memory read while another thread writes it: an optimistic read that overlaps a write may return anything, but is not followed before it has been validated; the 64 KB of padding behind the pages is not modelled.
- Deadlocks, starvation and progress of the lock loops under contention (`Solo` is about threads that are left alone), `yield`, weak memory order and spurious failure of compare-and-swap beyond a retry.
- Versions that wrap: runs assume fewer than 2^56 releases of a page.
- Everything inside `ucache::`: faults, eviction lists, snapshots and I/O. A page's content is unchanged by eviction and reload; the lock steps of eviction and fault handling are part of the protocol.
- The dirty flag and what `vmcache_canBeEvicted` decides by it, including its last branch for a page found Locked.
- The move constructor of `GuardS`, which reads an uninitialised field.
- Concurrent scans: the scans of `BTree` are sequential, with their shared locks as steps of agents in the interleaved model.
- Several trees on one metadata page: one tree, whose root is the right-most child of page 0.
- Merging of inner nodes and reuse of pages, which the code does not do.
- Truncating a payload to the caller's buffer in the first form of `lookup`.
- The slot array and the heap bytes overlap in memory in the code and are two arrays in `Pages`; that slots end before the heap begins is part of the invariant.
- In `Pages.BTreeNode.SplitNode` the parent is updated after the halves have been filled, in the code before; the halves do not depend on it.
- The AVX512 and SSE variants of the copy routines, and prefetching; vector registers and masks are byte and bit sequences.
- Setting bits in the bitmap of the frontier search, which it writes and never reads; bitmap words are sets of bit positions.
- Graph files, thread pinning, timing and printing; the graph is a well-formed CSR graph with distances below 65535.
- Isolation of concurrent TPC-C transactions: the code has none, and transactions follow one another in the model.
- `tpcc_remove` and `manually_handle_isolation_anomalies` are on, as the benchmark starts them.
- Stock, items beyond their price, addresses, credit data, the secondary order index, and the reading transactions `stockLevel` and `orderStatus`.
- Floating point: amounts are reals.
- The shuffle of customers in `loadOrders`, which indexes one past the end: any assignment of customers to orders is allowed. The other loaders appear as the conditions of `Tables.Loaded`.
- Line numbers of a new order are 1 to their count, as the caller builds them; random inputs are parameters.
