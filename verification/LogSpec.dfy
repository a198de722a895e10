/** `MemoryStorage` and `RaftLog` as functions of their contents. */
module LogSpec {
  import opened RaftTypes

  const UINT64: nat := 0x1_0000_0000_0000_0000

  /** `x - y` on `uint64_t`, for operands in range. */
  function Sub64(x: nat, y: nat): nat {
    if x >= y then x - y else if y - x <= UINT64 then UINT64 - (y - x) else 0
  }

  function Min(x: nat, y: nat): nat { if x <= y then x else y }

  // ----- MemoryStorage -----

  function DummyEntry(): Entry { Entry(EntryNormal, 0, 0, "") }

  function StorageFirst(ents: seq<Entry>): nat
    requires |ents| > 0
  {
    ents[0].index + 1
  }

  function StorageLast(ents: seq<Entry>): nat
    requires |ents| > 0
  {
    ents[0].index + |ents| - 1
  }

  function StorageTerm(ents: seq<Entry>, i: nat): Term
    requires |ents| > 0
  {
    var offset := ents[0].index;
    if i < offset || i - offset >= |ents| then 0 else ents[i - offset].term
  }

  function StorageAppend(ents: seq<Entry>, es: seq<Entry>): (r: seq<Entry>)
    requires |ents| > 0
    ensures |r| > 0
  {
    if |es| == 0 || es[0].index + |es| - 1 < StorageFirst(ents) then ents
    else
      var cut := StorageFirst(ents) as int - es[0].index as int - 1;
      // A batch that starts too low loses one entry, not all that are below.
      var es' := if cut >= 0 then es[..cut] + es[cut + 1..] else es;
      if es'[0].index < ents[0].index then ents
      else
        var offset := es'[0].index - ents[0].index;
        if |ents| >= offset then ents[..offset] + es' else ents
  }

  // ----- RaftLog -----

  function LastIndex(l: LogState): nat
    requires |l.storage| > 0
  {
    if |l.entries| > 0 then l.entries[|l.entries| - 1].index else StorageLast(l.storage)
  }

  /** `RaftLog::Term`. The source reads past the end of `entries_` when `i` is
      beyond the log; here such a lookup gives 0. Runs with fresh elections never
      make one; other runs can, in `LeaderCommit` only. */
  function TermOf(l: LogState, i: nat): Term
    requires |l.storage| > 0
  {
    if |l.entries| > 0 && i >= l.first then
      if i - l.first < |l.entries| then l.entries[i - l.first].term else 0
    else StorageTerm(l.storage, i)
  }

  function ToSliceIndex(l: LogState, i: nat): nat { Sub64(i, l.first) }

  /** The entries a message with previous index `prev` carries. */
  function EntriesAfter(l: LogState, prev: nat): seq<Entry> {
    var i := ToSliceIndex(l, prev + 1);
    if i <= |l.entries| then l.entries[i..] else []
  }

  predicate UnstableInRange(l: LogState) {
    |l.entries| > 0 ==> l.first <= l.stabled + 1 <= l.first + |l.entries|
  }

  function UnstableEntries(l: LogState): seq<Entry>
    requires UnstableInRange(l)
  {
    if |l.entries| > 0 then l.entries[l.stabled + 1 - l.first..] else []
  }

  predicate NextInRange(l: LogState) {
    |l.entries| > 0 ==> l.first <= l.applied + 1 <= l.committed + 1 <= l.first + |l.entries|
  }

  function NextEnts(l: LogState): seq<Entry>
    requires NextInRange(l)
  {
    if |l.entries| > 0 then l.entries[l.applied + 1 - l.first..l.committed + 1 - l.first] else []
  }

  // ----- Receiving a batch (the loop of HandleAppendEntries) -----

  /** One pass over `batch` from position `i`, with the source's counter
      `count`. Entries below the first index are skipped without counting. */
  function Absorb(l: LogState, batch: seq<Entry>, i: nat, count: nat): LogState
    requires |l.storage| > 0
    requires count <= i <= |batch|
    decreases |batch| - i
  {
    if i == |batch| then l
    else
      var e := batch[i];
      if e.index < l.first then Absorb(l, batch, i + 1, count)
      else if e.index <= LastIndex(l) then
        Absorb(Overwrite(l, e), batch, i + 1, count + 1)
      else
        l.(entries := l.entries + batch[count..])
  }

  /** The body of the loop for an entry at an index the log already has. */
  function Overwrite(l: LogState, e: Entry): (r: LogState)
    requires |l.storage| > 0
  {
    if TermOf(l, e.index) == e.term then l
    else if e.index < l.first || e.index - l.first >= |l.entries| then l
    else l.(entries := l.entries[..e.index - l.first] + [e],
            stabled := Min(l.stabled, Sub64(e.index, 1)))
  }
}
