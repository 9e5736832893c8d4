/** The page lock word: an 8-bit state above a 56-bit version, changed by single atomic steps of any
    number of threads. `PageState` holds the word; `Lock` adds who holds it, for the proofs. */
module PageLocks {
  import opened Nodes

  type Word = w: int | 0 <= w < 0x1_0000_0000_0000_0000

  const UNLOCKED := 0
  const MAX_SHARED := 252
  const LOCKED := 253
  const MARKED := 254
  const EVICTED := 255
  /** 2 to the 56: the weight of the state byte. */
  const TOP := 0x100_0000_0000_0000

  type Tid = nat

  // ----- packing -----

  /** Bits shifted past the top of a 64-bit word are lost. */
  function ShiftLeft(v: int, factor: int): (w: Word)
    requires 0 <= v && factor > 0
  {
    (v * factor) % 0x1_0000_0000_0000_0000
  }

  /** The bitwise or of `v`, at most 2 to the 56, with a state moved to the top byte: a carry out of the
      version meets the lowest bit of the state. */
  function OrState(v: int, state: int): (w: Word)
    requires 0 <= v <= TOP && 0 <= state < 256
  {
    if v < TOP then v + state * TOP else (if state % 2 == 0 then state + 1 else state) * TOP
  }

  function StateOf(w: Word): (s: int)
    ensures 0 <= s < 256
  {
    w / TOP
  }

  function VersionOf(w: Word): (v: int)
    ensures 0 <= v < TOP
  {
    ShiftLeft(w, 256) / 256
  }

  function SameVersion(w: Word, state: int): Word
    requires 0 <= state < 256
  {
    OrState(ShiftLeft(w, 256) / 256, state)
  }

  function NextVersion(w: Word, state: int): Word
    requires 0 <= state < 256
  {
    OrState(ShiftLeft(w, 256) / 256 + 1, state)
  }

  lemma Unpack(w: Word)
    ensures w == StateOf(w) * TOP + VersionOf(w)
  {
    assert w * 256 == (w % TOP) * 256 + (w / TOP) * 0x1_0000_0000_0000_0000;
    assert ShiftLeft(w, 256) == (w % TOP) * 256;
  }

  lemma SameVersionUnpacks(w: Word, state: int)
    requires 0 <= state < 256
    ensures StateOf(SameVersion(w, state)) == state && VersionOf(SameVersion(w, state)) == VersionOf(w)
  {
    Unpack(w);
    Unpack(SameVersion(w, state));
  }

  /** The increment stays out of the state byte exactly below the last version. */
  lemma NextVersionUnpacks(w: Word, state: int)
    requires 0 <= state < 256
    ensures (StateOf(NextVersion(w, state)) == state && VersionOf(NextVersion(w, state)) == VersionOf(w) + 1)
            <==> VersionOf(w) + 1 < TOP
  {
    Unpack(w);
    Unpack(NextVersion(w, state));
  }

  /** At the last version the version starts over, and an even state comes out one higher. */
  lemma LastVersionCarries(w: Word, state: int)
    requires 0 <= state < 256 && VersionOf(w) + 1 == TOP
    ensures VersionOf(NextVersion(w, state)) == 0
    ensures StateOf(NextVersion(w, state)) == if state % 2 == 0 then state + 1 else state
  {
    Unpack(w);
    Unpack(NextVersion(w, state));
  }

  // ----- one lock and its holders -----

  /** `x` is the thread holding the page exclusively, `s` the threads holding it shared. */
  datatype Lock = Lock(word: Word, x: Option<Tid>, s: multiset<Tid>)

  datatype Action =
    | LockX          // tryLockX: from Unlocked, Marked or Evicted
    | UnlockX
    | UnlockXEvicted
    | Downgrade
    | LockS          // tryLockS: below 252 holders, or Marked
    | UnlockS
    | Mark           // the evictor's second chance
    | ClearMark      // an optimistic reader revives a marked page
    | LockOwnShared  // the evictor turns its own sole shared lock into an exclusive one

  predicate Enabled(a: Action, t: Tid, l: Lock) {
    var st := StateOf(l.word);
    match a
    case LockX => st == UNLOCKED || st == MARKED || st == EVICTED
    case UnlockX => l.x == Some(t)
    case UnlockXEvicted => l.x == Some(t)
    case Downgrade => l.x == Some(t)
    case LockS => st < MAX_SHARED || st == MARKED
    case UnlockS => t in l.s && st > 0
    case Mark => st == UNLOCKED
    case ClearMark => st == MARKED
    case LockOwnShared => st == 1 && l.s == multiset{t}
  }

  function Apply(a: Action, t: Tid, l: Lock): Lock
    requires Enabled(a, t, l)
  {
    var w, st := l.word, StateOf(l.word);
    match a
    case LockX => Lock(SameVersion(w, LOCKED), Some(t), l.s)
    case UnlockX => Lock(NextVersion(w, UNLOCKED), None, l.s)
    case UnlockXEvicted => Lock(NextVersion(w, EVICTED), None, l.s)
    case Downgrade => Lock(NextVersion(w, 1), None, l.s + multiset{t})
    case LockS => Lock(SameVersion(w, if st < MAX_SHARED then st + 1 else 1), l.x, l.s + multiset{t})
    case UnlockS => Lock(SameVersion(w, st - 1), l.x, l.s - multiset{t})
    case Mark => l.(word := SameVersion(w, MARKED))
    case ClearMark => l.(word := SameVersion(w, UNLOCKED))
    case LockOwnShared => Lock(SameVersion(w, LOCKED), Some(t), l.s - multiset{t})
  }

  predicate Releases(a: Action) {
    a.UnlockX? || a.UnlockXEvicted? || a.Downgrade?
  }

  /** The state byte counts the shared holders, and says Locked exactly while someone holds the page alone. */
  predicate Inv(l: Lock) {
    && (l.x.Some? <==> StateOf(l.word) == LOCKED)
    && |l.s| == (if StateOf(l.word) <= MAX_SHARED then StateOf(l.word) else 0)
  }

  /** Twice the version, plus one while the page is held exclusively. Versions wrap in the code, so a
      release is only counted as a step of the model while the version has room. */
  function Epoch(l: Lock): int {
    2 * VersionOf(l.word) + if l.x.Some? then 1 else 0
  }

  predicate Step(a: Action, t: Tid, l: Lock, l': Lock) {
    Enabled(a, t, l) && (Releases(a) ==> VersionOf(l.word) + 1 < TOP) && l' == Apply(a, t, l)
  }

  lemma StepEffect(a: Action, t: Tid, l: Lock, l': Lock)
    requires Step(a, t, l, l') && Inv(l)
    ensures VersionOf(l'.word) == VersionOf(l.word) + (if Releases(a) then 1 else 0)
    ensures StateOf(l'.word) ==
      match a
      case LockX => LOCKED case LockOwnShared => LOCKED
      case UnlockX => UNLOCKED case ClearMark => UNLOCKED
      case UnlockXEvicted => EVICTED
      case Downgrade => 1
      case Mark => MARKED
      case LockS => if StateOf(l.word) < MAX_SHARED then StateOf(l.word) + 1 else 1
      case UnlockS => StateOf(l.word) - 1
  {
    hide StateOf, VersionOf, SameVersion, NextVersion;
    if Releases(a) {
      NextVersionUnpacks(l.word, if a.UnlockX? then UNLOCKED else if a.Downgrade? then 1 else EVICTED);
    } else {
      var st := StateOf(l.word);
      SameVersionUnpacks(l.word,
        match a
        case LockX => LOCKED case LockOwnShared => LOCKED
        case ClearMark => UNLOCKED
        case Mark => MARKED
        case LockS => if st < MAX_SHARED then st + 1 else 1
        case UnlockS => st - 1
        case _ => 0);
    }
  }

  lemma StepInv(a: Action, t: Tid, l: Lock, l': Lock)
    requires Step(a, t, l, l') && Inv(l)
    ensures Inv(l')
    ensures Epoch(l') == Epoch(l) + (if Releases(a) || a.LockX? || a.LockOwnShared? then 1 else 0)
  {
    hide StateOf, VersionOf, SameVersion, NextVersion;
    StepEffect(a, t, l, l');
  }

  /** While a page is held exclusively no other thread has an enabled step on its word. */
  lemma OnlyHolderSteps(a: Action, t: Tid, l: Lock)
    requires Inv(l) && l.x.Some? && Enabled(a, t, l)
    ensures l.x == Some(t) && Releases(a)
  {
    if |l.s| == 0 { assert l.s == multiset{}; }
  }

  // ----- whole runs -----

  /** A page as `init` leaves it. */
  function Fresh(): Lock {
    Lock(SameVersion(0, EVICTED), None, multiset{})
  }

  /** Any interleaving of steps of any threads, from a fresh page. */
  predicate Run(ls: seq<Lock>, steps: seq<(Action, Tid)>) {
    && |ls| == |steps| + 1 && ls[0] == Fresh()
    && forall i | 0 <= i < |steps| :: Step(steps[i].0, steps[i].1, ls[i], ls[i + 1])
  }

  lemma {:induction false} RunInv(ls: seq<Lock>, steps: seq<(Action, Tid)>, i: nat)
    requires Run(ls, steps) && i < |ls|
    ensures Inv(ls[i])
    decreases i
  {
    hide SameVersion, NextVersion, Apply;
    if i == 0 {
      SameVersionUnpacks(0, EVICTED);
    } else {
      RunInv(ls, steps, i - 1);
      StepInv(steps[i - 1].0, steps[i - 1].1, ls[i - 1], ls[i]);
    }
  }

  /** Safety of the lock protocol over every run: an exclusive holder excludes everybody else, and the
      number of shared holders is the state byte and stays out of the special codes. */
  lemma RunSafe(ls: seq<Lock>, steps: seq<(Action, Tid)>, i: nat)
    requires Run(ls, steps) && i < |ls|
    ensures ls[i].x.Some? ==> ls[i].s == multiset{}
    ensures |ls[i].s| <= 252
    ensures ls[i].s != multiset{} ==> StateOf(ls[i].word) == |ls[i].s|
    ensures ls[i].s == multiset{} && ls[i].x.None? ==>
      StateOf(ls[i].word) == 0 || StateOf(ls[i].word) == 254 || StateOf(ls[i].word) == 255
  {
    hide StateOf, SameVersion, NextVersion, Apply, Run;
    RunInv(ls, steps, i);
    if |ls[i].s| == 0 { assert ls[i].s == multiset{}; }
  }

  function Releasing(steps: seq<(Action, Tid)>, i: nat, j: nat): nat
    requires i <= j <= |steps|
    decreases j - i
  {
    if i == j then 0 else Releasing(steps, i, j - 1) + if Releases(steps[j - 1].0) then 1 else 0
  }

  /** The version counts exclusive releases and downgrades, and the epoch never falls. */
  lemma {:induction false} RunVersion(ls: seq<Lock>, steps: seq<(Action, Tid)>, i: nat, j: nat)
    requires Run(ls, steps) && i <= j < |ls|
    ensures VersionOf(ls[j].word) == VersionOf(ls[i].word) + Releasing(steps, i, j)
    ensures Epoch(ls[i]) <= Epoch(ls[j])
    decreases j
  {
    hide StateOf, VersionOf, SameVersion, NextVersion, Apply;
    if i < j {
      RunVersion(ls, steps, i, j - 1);
      RunInv(ls, steps, j - 1);
      StepEffect(steps[j - 1].0, steps[j - 1].1, ls[j - 1], ls[j]);
      StepInv(steps[j - 1].0, steps[j - 1].1, ls[j - 1], ls[j]);
    }
  }

  /** `checkVersionAndRestart` keeps going: nothing changed, or only shared locks or a mark did. */
  predicate CheckPasses(recorded: Word, now: Word) {
    || recorded == now
    || (ShiftLeft(now, 256) == ShiftLeft(recorded, 256) && (StateOf(now) <= MAX_SHARED || StateOf(now) == MARKED))
  }

  lemma CheckMeaning(recorded: Word, now: Word)
    requires StateOf(recorded) <= MAX_SHARED
    ensures CheckPasses(recorded, now) <==>
      VersionOf(now) == VersionOf(recorded) && (StateOf(now) <= MAX_SHARED || StateOf(now) == MARKED)
  {
    assert ShiftLeft(now, 256) % 256 == 0 && ShiftLeft(recorded, 256) % 256 == 0;
  }

  predicate NeverExclusive(ls: seq<Lock>, i: nat, j: nat)
    requires i <= j < |ls|
  {
    forall m | i <= m <= j :: ls[m].x == None
  }

  lemma {:induction false} NotEvictedMeanwhile(ls: seq<Lock>, steps: seq<(Action, Tid)>, i: nat, j: nat)
    requires Run(ls, steps) && i <= j < |ls| && NeverExclusive(ls, i, j)
    requires StateOf(ls[i].word) != EVICTED
    ensures StateOf(ls[j].word) != EVICTED && VersionOf(ls[j].word) == VersionOf(ls[i].word)
    decreases j
  {
    hide StateOf, VersionOf, SameVersion, NextVersion, Apply;
    if i < j {
      NotEvictedMeanwhile(ls, steps, i, j - 1);
      RunInv(ls, steps, j - 1);
      StepEffect(steps[j - 1].0, steps[j - 1].1, ls[j - 1], ls[j]);
      assert ls[j - 1].x == None;
    }
  }

  /** Optimistic validation is exact: a guard that recorded the word at `i` passes its check at `j` if and
      only if nobody held the page exclusively at any moment from `i` to `j`. */
  lemma ValidationExact(ls: seq<Lock>, steps: seq<(Action, Tid)>, i: nat, j: nat)
    requires Run(ls, steps) && i <= j < |ls| && StateOf(ls[i].word) <= MAX_SHARED
    ensures CheckPasses(ls[i].word, ls[j].word) <==> NeverExclusive(ls, i, j)
  {
    hide StateOf, VersionOf, SameVersion, NextVersion, Apply;
    CheckMeaning(ls[i].word, ls[j].word);
    RunInv(ls, steps, i);
    RunInv(ls, steps, j);
    if CheckPasses(ls[i].word, ls[j].word) {
      SameVersionQuiet(ls, steps, i, j);
    }
    if NeverExclusive(ls, i, j) {
      NotEvictedMeanwhile(ls, steps, i, j);
      assert ls[j].x == None;
    }
  }

  /** Upgrades only look at the version and at the state they lock from: that is as good as the check. */
  lemma SameVersionQuiet(ls: seq<Lock>, steps: seq<(Action, Tid)>, i: nat, j: nat)
    requires Run(ls, steps) && i <= j < |ls|
    requires StateOf(ls[i].word) != LOCKED && StateOf(ls[j].word) != LOCKED
    requires VersionOf(ls[i].word) == VersionOf(ls[j].word)
    ensures NeverExclusive(ls, i, j)
  {
    hide StateOf, VersionOf, SameVersion, NextVersion, Apply, Run;
    RunInv(ls, steps, i);
    RunInv(ls, steps, j);
    forall m | i <= m <= j ensures ls[m].x == None {
      RunVersion(ls, steps, i, m);
      RunVersion(ls, steps, m, j);
      RunInv(ls, steps, m);
    }
  }

  // ----- the word in place -----

  /** What the protocol asks of whoever takes the action. */
  predicate MayTake(a: Action, t: Tid, l: Lock) {
    match a
    case UnlockX => l.x == Some(t) && VersionOf(l.word) + 1 < TOP
    case UnlockXEvicted => l.x == Some(t) && VersionOf(l.word) + 1 < TOP
    case Downgrade => l.x == Some(t) && VersionOf(l.word) + 1 < TOP
    case UnlockS => t in l.s
    case LockOwnShared => l.s == multiset{t}
    case _ => true
  }

  /** Changing the word from `was` to `now` is action `a` of the protocol, whoever holds the page. */
  ghost predicate Takes(a: Action, was: Word, now: Word) {
    forall t: Tid, l: Lock | l.word == was && Inv(l) && MayTake(a, t, l) :: Enabled(a, t, l) && Apply(a, t, l).word == now
  }

  /** Whoever held the page before still does, and the state byte says so. */
  ghost predicate HoldersStay(was: Word, now: Word) {
    forall l: Lock | l.word == was && Inv(l) :: Inv(l.(word := now))
  }

  class PageState {
    var stateAndVersion: Word

    constructor ()
      ensures StateOf(stateAndVersion) == 255 && VersionOf(stateAndVersion) == 0
    {
      SameVersionUnpacks(0, EVICTED);
      stateAndVersion := SameVersion(0, EVICTED);
    }

    /** One compare-and-swap. */
    method CompareExchange(expected: Word, desired: Word) returns (ok: bool)
      modifies this
      ensures ok <==> old(stateAndVersion) == expected
      ensures stateAndVersion == if ok then desired else old(stateAndVersion)
    {
      ok := stateAndVersion == expected;
      if ok { stateAndVersion := desired; }
    }

    method TryLockX(observed: Word) returns (ok: bool)
      modifies this
      ensures ok <==> old(stateAndVersion) == observed
      ensures ok ==> StateOf(stateAndVersion) == 253 && VersionOf(stateAndVersion) == VersionOf(observed)
      ensures ok && StateOf(observed) in {0, 254, 255} ==> Takes(LockX, observed, stateAndVersion)
      ensures ok && StateOf(observed) == 1 ==> Takes(LockOwnShared, observed, stateAndVersion)
      ensures !ok ==> stateAndVersion == old(stateAndVersion)
    {
      SameVersionUnpacks(observed, LOCKED);
      ok := CompareExchange(observed, SameVersion(observed, LOCKED));
    }

    /** At the last version the page ends up shared by a holder that does not exist. */
    method UnlockX()
      requires StateOf(stateAndVersion) == LOCKED
      modifies this
      ensures StateOf(stateAndVersion) == if VersionOf(old(stateAndVersion)) + 1 < TOP then 0 else 1
      ensures VersionOf(stateAndVersion) == (VersionOf(old(stateAndVersion)) + 1) % TOP
      ensures Takes(Action.UnlockX, old(stateAndVersion), stateAndVersion)
    {
      NextVersionUnpacks(stateAndVersion, UNLOCKED);
      if VersionOf(stateAndVersion) + 1 == TOP { LastVersionCarries(stateAndVersion, UNLOCKED); }
      stateAndVersion := NextVersion(stateAndVersion, UNLOCKED);
    }

    method UnlockXEvicted()
      requires StateOf(stateAndVersion) == LOCKED
      modifies this
      ensures StateOf(stateAndVersion) == 255
      ensures VersionOf(stateAndVersion) == (VersionOf(old(stateAndVersion)) + 1) % TOP
      ensures Takes(Action.UnlockXEvicted, old(stateAndVersion), stateAndVersion)
    {
      NextVersionUnpacks(stateAndVersion, EVICTED);
      if VersionOf(stateAndVersion) + 1 == TOP { LastVersionCarries(stateAndVersion, EVICTED); }
      stateAndVersion := NextVersion(stateAndVersion, EVICTED);
    }

    method DowngradeLock()
      requires StateOf(stateAndVersion) == LOCKED
      modifies this
      ensures StateOf(stateAndVersion) == 1
      ensures VersionOf(stateAndVersion) == (VersionOf(old(stateAndVersion)) + 1) % TOP
      ensures Takes(Downgrade, old(stateAndVersion), stateAndVersion)
    {
      NextVersionUnpacks(stateAndVersion, 1);
      if VersionOf(stateAndVersion) + 1 == TOP { LastVersionCarries(stateAndVersion, 1); }
      stateAndVersion := NextVersion(stateAndVersion, 1);
    }

    /** Fails when the word moved on, and always on a full, locked or evicted page. */
    method TryLockS(observed: Word) returns (ok: bool)
      modifies this
      ensures ok <==> old(stateAndVersion) == observed && (StateOf(observed) < 252 || StateOf(observed) == 254)
      ensures ok ==> VersionOf(stateAndVersion) == VersionOf(observed)
      ensures ok ==> StateOf(stateAndVersion) == if StateOf(observed) < 252 then StateOf(observed) + 1 else 1
      ensures ok ==> Takes(LockS, observed, stateAndVersion)
      ensures !ok ==> stateAndVersion == old(stateAndVersion)
    {
      var s := StateOf(observed);
      if s < MAX_SHARED {
        SameVersionUnpacks(observed, s + 1);
        ok := CompareExchange(observed, SameVersion(observed, s + 1));
        return;
      }
      if s == MARKED {
        SameVersionUnpacks(observed, 1);
        ok := CompareExchange(observed, SameVersion(observed, 1));
        return;
      }
      ok := false;
    }

    /** One round of the release loop. */
    method UnlockSRound(observed: Word) returns (ok: bool)
      requires 0 < StateOf(observed) <= MAX_SHARED
      modifies this
      ensures ok <==> old(stateAndVersion) == observed
      ensures ok ==> StateOf(stateAndVersion) == StateOf(observed) - 1 && VersionOf(stateAndVersion) == VersionOf(observed)
      ensures ok ==> Takes(UnlockS, observed, stateAndVersion)
      ensures !ok ==> stateAndVersion == old(stateAndVersion)
    {
      SameVersionUnpacks(observed, StateOf(observed) - 1);
      ok := CompareExchange(observed, SameVersion(observed, StateOf(observed) - 1));
    }

    method TryMark(observed: Word) returns (ok: bool)
      requires StateOf(observed) == UNLOCKED
      modifies this
      ensures ok <==> old(stateAndVersion) == observed
      ensures ok ==> StateOf(stateAndVersion) == 254 && VersionOf(stateAndVersion) == VersionOf(observed)
      ensures ok ==> Takes(Mark, observed, stateAndVersion)
      ensures !ok ==> stateAndVersion == old(stateAndVersion)
    {
      SameVersionUnpacks(observed, MARKED);
      ok := CompareExchange(observed, SameVersion(observed, MARKED));
    }

    /** `checkVersionAndRestart`: false stands for the restart. A mark is cleared on the way. */
    method CheckVersion(recorded: Word) returns (ok: bool)
      modifies this
      ensures ok <==> CheckPasses(recorded, old(stateAndVersion))
      ensures VersionOf(stateAndVersion) == VersionOf(old(stateAndVersion))
      ensures ok && StateOf(recorded) <= 252 ==> StateOf(stateAndVersion) <= 252
      ensures !ok ==> stateAndVersion == old(stateAndVersion)
      ensures HoldersStay(old(stateAndVersion), stateAndVersion)
      ensures stateAndVersion != old(stateAndVersion) ==>
        StateOf(old(stateAndVersion)) == 254 && StateOf(stateAndVersion) == 0
        && Takes(ClearMark, old(stateAndVersion), stateAndVersion)
      ensures ok && recorded != old(stateAndVersion) ==> StateOf(stateAndVersion) != 254
    {
      var now := stateAndVersion;
      if recorded == now { return true; }
      if ShiftLeft(now, 256) == ShiftLeft(recorded, 256) {
        if StateOf(now) <= MAX_SHARED { return true; }
        if StateOf(now) == MARKED {
          SameVersionUnpacks(now, UNLOCKED);
          ok := CompareExchange(now, SameVersion(now, UNLOCKED));
          return;
        }
      }
      ok := false;
    }
  }
}
