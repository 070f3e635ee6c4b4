/**
 From samples to the raw CSV file: block splitting with the tail flush, and the table whose header grows.

 A CSV file is a sequence of rows of cells; quoting and text encoding are not modelled. A sample is the
 mapping that is written for it, with its keys in order and its values as the text of their cells.
 */
module RawData {
  import opened Wrappers

  type Address = string
  type Header = string
  type Cell = string

  datatype Sample = Sample(address: Address, keys: seq<Header>, value: map<Header, Cell>)

  predicate Distinct<T(==)>(s: seq<T>) {
    forall i, j :: 0 <= i < j < |s| ==> s[i] != s[j]
  }

  /** A mapping has each of its keys once. */
  predicate IsMapping(s: Sample) {
    Distinct(s.keys) && Elements(s.keys) == s.value.Keys
  }

  predicate AllMappings(samples: seq<Sample>) {
    forall i :: 0 <= i < |samples| ==> IsMapping(samples[i])
  }

  function Concat<T>(blocks: seq<seq<T>>): seq<T> {
    if blocks == [] then [] else Concat(blocks[..|blocks| - 1]) + blocks[|blocks| - 1]
  }

  lemma ConcatExtends<T>(blocks: seq<seq<T>>, block: seq<T>)
    ensures Concat(blocks + [block]) == Concat(blocks) + block
  {
    assert (blocks + [block])[..|blocks|] == blocks;
  }

  // ---------------------------------------------------------------- block splitting

  /** A sensor of a subject: its block size, its buffer, whether an output path is open, and the blocks queued for it. */
  datatype Entry = Entry(address: Address, size: nat, buffer: seq<Sample>, open: bool, queued: seq<seq<Sample>>)

  function Enqueue(e: Entry, block: seq<Sample>): Entry {
    if e.open && block != [] then e.(queued := e.queued + [block]) else e
  }

  function Split(e: Entry): Entry
    requires e.size > 0
    decreases |e.buffer|
  {
    if |e.buffer| < e.size then e
    else Split(Enqueue(e.(buffer := e.buffer[e.size..]), e.buffer[..e.size]))
  }

  function IngestEntry(e: Entry, s: Sample): Entry
    requires e.size > 0
  {
    Split(e.(buffer := e.buffer + [s]))
  }

  predicate Sized(entries: seq<Entry>) {
    forall i :: 0 <= i < |entries| ==> entries[i].size > 0
  }

  /** The first entry with the address, or none. */
  function Find(entries: seq<Entry>, a: Address): (r: Option<nat>)
    ensures r.Some? ==> r.value < |entries| && entries[r.value].address == a
                        && forall j :: 0 <= j < r.value ==> entries[j].address != a
    ensures r.None? ==> forall j :: 0 <= j < |entries| ==> entries[j].address != a
  {
    if entries == [] then None
    else if entries[0].address == a then Some(0)
    else match Find(entries[1..], a)
      case None => None
      case Some(k) => Some(k + 1)
  }

  function Ingest(entries: seq<Entry>, s: Sample): seq<Entry>
    requires Sized(entries)
  {
    match Find(entries, s.address)
    case None => entries
    case Some(k) => entries[k := IngestEntry(entries[k], s)]
  }

  lemma {:induction false} SplitKeeps(e: Entry)
    requires e.size > 0
    ensures var t := Split(e);
            && t.address == e.address && t.size == e.size && t.open == e.open && |t.buffer| < e.size
            && (e.open ==> Concat(t.queued) + t.buffer == Concat(e.queued) + e.buffer)
            && (forall i :: 0 <= i < |t.queued| ==> t.queued[i] in e.queued || |t.queued[i]| == e.size)
    decreases |e.buffer|
  {
    if |e.buffer| >= e.size {
      var block := e.buffer[..e.size];
      var t := Enqueue(e.(buffer := e.buffer[e.size..]), block);
      SplitKeeps(t);
      ConcatExtends(e.queued, block);
      assert block + e.buffer[e.size..] == e.buffer;
    }
  }

  /** The samples of a stream that go to an address, in order. */
  function For(samples: seq<Sample>, a: Address): seq<Sample> {
    if samples == [] then []
    else For(samples[..|samples| - 1], a) + if samples[|samples| - 1].address == a then [samples[|samples| - 1]] else []
  }

  function IngestAll(entries: seq<Entry>, samples: seq<Sample>): (r: seq<Entry>)
    requires Sized(entries)
    ensures |r| == |entries| && Sized(r)
  {
    if samples == [] then entries
    else
      var t := IngestAll(entries, samples[..|samples| - 1]);
      IngestIsSized(t, samples[|samples| - 1]);
      Ingest(t, samples[|samples| - 1])
  }

  lemma IngestIsSized(entries: seq<Entry>, s: Sample)
    requires Sized(entries)
    ensures Sized(Ingest(entries, s)) && |Ingest(entries, s)| == |entries|
  {
    var k := Find(entries, s.address);
    if k.Some? {
      SplitKeeps(entries[k.value].(buffer := entries[k.value].buffer + [s]));
    }
  }

  /** The tail flush: what is left in each buffer is queued as a last block. */
  function FlushEntry(e: Entry): Entry {
    if e.buffer == [] then e else Enqueue(e, e.buffer).(buffer := [])
  }

  function Flush(entries: seq<Entry>): seq<Entry> {
    seq(|entries|, i requires 0 <= i < |entries| => FlushEntry(entries[i]))
  }

  predicate UniqueAddresses(entries: seq<Entry>) {
    forall i, j :: 0 <= i < j < |entries| ==> entries[i].address != entries[j].address
  }

  /** The entry as it was, after `got` was ingested. */
  ghost predicate Holds(e: Entry, t: Entry, got: seq<Sample>) {
    && t.address == e.address && t.size == e.size && t.open == e.open
    && Concat(t.queued) + t.buffer == Concat(e.queued) + e.buffer + got
    && (forall i :: 0 <= i < |t.queued| ==> t.queued[i] in e.queued || |t.queued[i]| == e.size)
  }

  lemma IngestEntryHolds(e: Entry, t: Entry, got: seq<Sample>, s: Sample)
    requires t.size > 0 && t.open && Holds(e, t, got)
    ensures Holds(e, IngestEntry(t, s), got + [s]) && |IngestEntry(t, s).buffer| < t.size
  {
    SplitKeeps(t.(buffer := t.buffer + [s]));
    assert Concat(t.queued) + (t.buffer + [s]) == (Concat(t.queued) + t.buffer) + [s];
    assert (Concat(e.queued) + e.buffer + got) + [s] == Concat(e.queued) + e.buffer + (got + [s]);
  }

  lemma {:induction false} IngestedInOrder(entries: seq<Entry>, samples: seq<Sample>, i: nat)
    requires Sized(entries) && UniqueAddresses(entries) && i < |entries| && entries[i].open
    ensures Holds(entries[i], IngestAll(entries, samples)[i], For(samples, entries[i].address))
    ensures forall j :: 0 <= j < |entries| ==> IngestAll(entries, samples)[j].address == entries[j].address
  {
    if samples != [] {
      var before, s := samples[..|samples| - 1], samples[|samples| - 1];
      IngestedInOrder(entries, before, i);
      var t := IngestAll(entries, before);
      var k := Find(t, s.address);
      if k.Some? {
        SplitKeeps(t[k.value].(buffer := t[k.value].buffer + [s]));
        if k.value == i {
          IngestEntryHolds(entries[i], t[i], For(before, entries[i].address), s);
        }
      }
    }
  }

  lemma {:induction false} BuffersStayShort(entries: seq<Entry>, samples: seq<Sample>, i: nat)
    requires Sized(entries) && i < |entries| && |entries[i].buffer| < entries[i].size
    ensures |IngestAll(entries, samples)[i].buffer| < IngestAll(entries, samples)[i].size
  {
    if samples != [] {
      var before, s := samples[..|samples| - 1], samples[|samples| - 1];
      BuffersStayShort(entries, before, i);
      var t := IngestAll(entries, before);
      var k := Find(t, s.address);
      if k.Some? {
        SplitKeeps(t[k.value].(buffer := t[k.value].buffer + [s]));
      }
    }
  }

  /** The tail flush of an entry that started empty. */
  lemma FlushCompletes(e: Entry, t: Entry, got: seq<Sample>)
    requires e.buffer == [] && e.queued == [] && e.size > 0 && e.open && |t.buffer| < t.size && Holds(e, t, got)
    ensures var done := FlushEntry(t);
            && Concat(done.queued) == got && done.buffer == []
            && (forall k :: 0 <= k < |done.queued| ==> 0 < |done.queued[k]| <= e.size)
            && (forall k :: 0 <= k < |done.queued| - 1 ==> |done.queued[k]| == e.size)
  {
    QueuedIsAll(e, t, got);
    BlocksAreFull(e, t, got);
    TailIsShort(t.queued, t.buffer, e.size);
    assert FlushEntry(t).queued == if t.buffer == [] then t.queued else t.queued + [t.buffer];
  }

  lemma BlocksAreFull(e: Entry, t: Entry, got: seq<Sample>)
    requires e.queued == [] && Holds(e, t, got)
    ensures forall k :: 0 <= k < |t.queued| ==> |t.queued[k]| == e.size
  {
    forall k | 0 <= k < |t.queued| ensures |t.queued[k]| == e.size {
      assert t.queued[k] !in e.queued;
    }
  }

  lemma TailIsShort(full: seq<seq<Sample>>, tail: seq<Sample>, size: nat)
    requires size > 0 && |tail| < size && forall k :: 0 <= k < |full| ==> |full[k]| == size
    ensures var blocks := if tail == [] then full else full + [tail];
            && (forall k :: 0 <= k < |blocks| ==> 0 < |blocks[k]| <= size)
            && (forall k :: 0 <= k < |blocks| - 1 ==> |blocks[k]| == size)
  {
  }

  lemma QueuedIsAll(e: Entry, t: Entry, got: seq<Sample>)
    requires e.buffer == [] && e.queued == [] && Holds(e, t, got)
    ensures Concat(if t.buffer == [] then t.queued else t.queued + [t.buffer]) == got
  {
    assert Concat(e.queued) + e.buffer + got == got;
    ConcatExtends(t.queued, t.buffer);
    assert t.buffer == [] ==> Concat(t.queued) + t.buffer == Concat(t.queued);
  }

  /**
   A subject starts with empty buffers. Whatever samples come, in whatever mix: the blocks queued for a
   sensor with an open path, followed by the tail flush, are exactly its samples in order; every block has
   the configured size, except that the last one may be a shorter tail.
   */
  lemma NothingLostOrReordered(entries: seq<Entry>, samples: seq<Sample>, i: nat)
    requires Sized(entries) && UniqueAddresses(entries) && i < |entries| && entries[i].open
    requires entries[i].buffer == [] && entries[i].queued == []
    ensures var done := Flush(IngestAll(entries, samples))[i];
            && Concat(done.queued) == For(samples, entries[i].address) && done.buffer == []
            && (forall k :: 0 <= k < |done.queued| ==> 0 < |done.queued[k]| <= entries[i].size)
            && (forall k :: 0 <= k < |done.queued| - 1 ==> |done.queued[k]| == entries[i].size)
  {
    IngestedInOrder(entries, samples, i);
    BuffersStayShort(entries, samples, i);
    FlushCompletes(entries[i], IngestAll(entries, samples)[i], For(samples, entries[i].address));
  }

  /** Without an open path nothing is queued, whatever is ingested and flushed. */
  lemma {:induction false} ClosedQueuesNothing(entries: seq<Entry>, samples: seq<Sample>, i: nat)
    requires Sized(entries) && i < |entries| && !entries[i].open
    ensures var t := IngestAll(entries, samples)[i];
            !t.open && t.queued == entries[i].queued && FlushEntry(t).queued == entries[i].queued && FlushEntry(t).buffer == []
  {
    if samples != [] {
      var before, s := samples[..|samples| - 1], samples[|samples| - 1];
      ClosedQueuesNothing(entries, before, i);
      var t := IngestAll(entries, before);
      SplitKeepsClosed(t[i].(buffer := t[i].buffer + [s]));
    }
  }

  lemma {:induction false} SplitKeepsClosed(e: Entry)
    requires e.size > 0 && !e.open
    ensures !Split(e).open && Split(e).queued == e.queued
    decreases |e.buffer|
  {
    if |e.buffer| >= e.size {
      SplitKeepsClosed(Enqueue(e.(buffer := e.buffer[e.size..]), e.buffer[..e.size]));
    }
  }

  // ---------------------------------------------------------------- the program

  /** A subject with its sensor entries. */
  class Subject {
    var entries: seq<Entry>

    constructor (entries': seq<Entry>)
      ensures entries == entries'
    {
      entries := entries';
    }

    method IngestSample(s: Sample) returns (found: bool)
      requires Sized(entries)
      modifies this
      ensures entries == Ingest(old(entries), s)
      ensures found <==> exists i :: 0 <= i < |old(entries)| && old(entries)[i].address == s.address
    {
      var k := Find(entries, s.address);
      if k.None? {
        return false;
      }
      var e := entries[k.value];
      e := e.(buffer := e.buffer + [s]);
      ghost var start := e;
      while |e.buffer| >= e.size
        invariant e.size > 0 && Split(e) == Split(start)
        decreases |e.buffer|
      {
        var block := e.buffer[..e.size];
        e := e.(buffer := e.buffer[e.size..]);
        if e.open && block != [] {
          e := e.(queued := e.queued + [block]);
        }
      }
      entries := entries[k.value := e];
      return true;
    }

    method FlushPendingSamples()
      modifies this
      ensures entries == Flush(old(entries))
    {
      for i := 0 to |entries|
        invariant |entries| == |old(entries)|
        invariant forall j :: 0 <= j < i ==> entries[j] == FlushEntry(old(entries)[j])
        invariant forall j :: i <= j < |entries| ==> entries[j] == old(entries)[j]
      {
        var e := entries[i];
        if e.buffer != [] {
          if e.open {
            e := e.(queued := e.queued + [e.buffer]);
          }
          entries := entries[i := e.(buffer := [])];
        }
      }
    }
  }
}
