/** The raw CSV table of one sensor, whose header grows as new fields appear. */
module RawTable {
  import opened Wrappers
  import opened RawData

  /** The headers remembered for the file, and the rows in the file, the header row included. */
  datatype Table = Table(headers: seq<Header>, file: seq<seq<Cell>>)

  // ---------------------------------------------------------------- headers

  function AddKeys(headers: seq<Header>, keys: seq<Header>): seq<Header> {
    if keys == [] then headers
    else
      var h, k := AddKeys(headers, keys[..|keys| - 1]), keys[|keys| - 1];
      if k in h then h else h + [k]
  }

  /** The keys of the samples, each once, in the order of first appearance. */
  function Derive(samples: seq<Sample>): seq<Header> {
    if samples == [] then [] else AddKeys(Derive(samples[..|samples| - 1]), samples[|samples| - 1].keys)
  }

  function Missing(headers: seq<Header>, derived: seq<Header>): seq<Header> {
    if derived == [] then []
    else
      var k := derived[|derived| - 1];
      Missing(headers, derived[..|derived| - 1]) + if k in headers then [] else [k]
  }

  // ---------------------------------------------------------------- rows

  function CellOf(s: Sample, h: Header): Cell {
    if h in s.value then s.value[h] else ""
  }

  function Row(s: Sample, headers: seq<Header>): (r: seq<Cell>)
    ensures |r| == |headers|
  {
    seq(|headers|, i requires 0 <= i < |headers| => CellOf(s, headers[i]))
  }

  function Rows(samples: seq<Sample>, headers: seq<Header>): (r: seq<seq<Cell>>)
    ensures |r| == |samples|
  {
    seq(|samples|, i requires 0 <= i < |samples| => Row(samples[i], headers))
  }

  /** The cell that a dictionary reader gives for a header; an absent cell is blank. */
  function Lookup(fields: seq<Header>, row: seq<Cell>, h: Header): Cell {
    if fields == [] then ""
    else
      var n := |fields| - 1;
      if fields[n] == h then if n < |row| then row[n] else ""
      else Lookup(fields[..n], row, h)
  }

  function NonEmpty(rows: seq<seq<Cell>>): seq<seq<Cell>> {
    if rows == [] then []
    else NonEmpty(rows[..|rows| - 1]) + if rows[|rows| - 1] == [] then [] else [rows[|rows| - 1]]
  }

  /** The data rows that a dictionary reader sees: none without field names, and no empty line. */
  function DataRows(file: seq<seq<Cell>>): seq<seq<Cell>> {
    if file == [] || file[0] == [] then [] else NonEmpty(file[1..])
  }

  function Fields(file: seq<seq<Cell>>): seq<Header> {
    if file == [] then [] else file[0]
  }

  function Refit(fields: seq<Header>, row: seq<Cell>, headers: seq<Header>): seq<Cell> {
    seq(|headers|, i requires 0 <= i < |headers| => Lookup(fields, row, headers[i]))
  }

  function RefitAll(fields: seq<Header>, rows: seq<seq<Cell>>, headers: seq<Header>): seq<seq<Cell>> {
    seq(|rows|, i requires 0 <= i < |rows| => Refit(fields, rows[i], headers))
  }

  // ---------------------------------------------------------------- writing

  function EnsureHeaders(t: Table, block: seq<Sample>): Table {
    var derived := Derive(block);
    if t.headers == [] then Table(derived, [derived])
    else
      var missing := Missing(t.headers, derived);
      if missing == [] then t
      else
        var expanded := t.headers + missing;
        Table(expanded, [expanded] + RefitAll(Fields(t.file), DataRows(t.file), expanded))
  }

  function Write(t: Table, block: seq<Sample>): Table {
    if block == [] then t
    else
      var u := EnsureHeaders(t, block);
      u.(file := u.file + Rows(block, u.headers))
  }

  /** A stream starts with an empty file and no headers. */
  function WriteAll(blocks: seq<seq<Sample>>): Table {
    if blocks == [] then Table([], []) else Write(WriteAll(blocks[..|blocks| - 1]), blocks[|blocks| - 1])
  }

  /** The file as written in one go from all the samples. */
  function Render(samples: seq<Sample>): Table {
    var headers := Derive(samples);
    Table(headers, [headers] + Rows(samples, headers))
  }

  // ---------------------------------------------------------------- header lemmas

  lemma {:induction false} MissingIs(headers: seq<Header>, derived: seq<Header>, k: Header)
    ensures k in Missing(headers, derived) <==> k in derived && k !in headers
  {
    if derived != [] {
      MissingIs(headers, derived[..|derived| - 1], k);
      assert derived == derived[..|derived| - 1] + [derived[|derived| - 1]];
    }
  }

  lemma {:induction false} AddKeysAfter(h: seq<Header>, d: seq<Header>, keys: seq<Header>)
    ensures AddKeys(h + Missing(h, d), keys) == h + Missing(h, AddKeys(d, keys))
  {
    if keys != [] {
      var front, k := keys[..|keys| - 1], keys[|keys| - 1];
      AddKeysAfter(h, d, front);
      var e := AddKeys(d, front);
      MissingIs(h, e, k);
      if k !in e {
        assert (e + [k])[..|e|] == e;
      }
    }
  }

  /** Headers of more samples: the old ones first, then the new keys in their own order. */
  lemma {:induction false} DeriveAppends(a: seq<Sample>, b: seq<Sample>)
    ensures Derive(a + b) == Derive(a) + Missing(Derive(a), Derive(b))
  {
    if b == [] {
      assert a + b == a;
    } else {
      var front := b[..|b| - 1];
      DeriveAppends(a, front);
      assert (a + b)[..|a + b| - 1] == a + front;
      AddKeysAfter(Derive(a), Derive(front), b[|b| - 1].keys);
    }
  }

  lemma {:induction false} AddKeysHas(h: seq<Header>, keys: seq<Header>, k: Header)
    ensures k in AddKeys(h, keys) <==> k in h || k in keys
  {
    if keys != [] {
      AddKeysHas(h, keys[..|keys| - 1], k);
      assert keys == keys[..|keys| - 1] + [keys[|keys| - 1]];
    }
  }

  /** Exactly the keys of the samples become headers. */
  lemma {:induction false} DeriveHas(samples: seq<Sample>, k: Header)
    ensures k in Derive(samples) <==> exists i :: 0 <= i < |samples| && k in samples[i].keys
  {
    if samples != [] {
      var n := |samples| - 1;
      DeriveHas(samples[..n], k);
      AddKeysHas(Derive(samples[..n]), samples[n].keys, k);
      assert forall i :: 0 <= i < n ==> samples[..n][i] == samples[i];
    }
  }

  predicate HasField(block: seq<Sample>) {
    exists i :: 0 <= i < |block| && block[i].keys != []
  }

  lemma FieldsMakeHeaders(block: seq<Sample>)
    ensures HasField(block) <==> Derive(block) != []
  {
    if i :| 0 <= i < |block| && block[i].keys != [] {
      DeriveHas(block, block[i].keys[0]);
    } else if Derive(block) != [] {
      DeriveHas(block, Derive(block)[0]);
    }
  }

  // ---------------------------------------------------------------- row lemmas

  lemma {:induction false} LookupOfRow(fields: seq<Header>, s: Sample, all: seq<Header>, h: Header)
    requires fields <= all
    ensures Lookup(fields, Row(s, all), h) == if h in fields then CellOf(s, h) else ""
  {
    if fields != [] {
      var n := |fields| - 1;
      LookupOfRow(fields[..n], s, all, h);
      assert fields == fields[..n] + [fields[n]];
    }
  }

  /** A reader finds each value under its own header and blanks elsewhere. */
  lemma ReadsRow(s: Sample, headers: seq<Header>, h: Header)
    requires IsMapping(s) && forall k :: k in s.keys ==> k in headers
    ensures Lookup(headers, Row(s, headers), h) == CellOf(s, h)
  {
    LookupOfRow(headers, s, headers, h);
    assert h in s.value ==> h in Elements(s.keys);
  }

  lemma {:induction false} NonEmptyIsAll(rows: seq<seq<Cell>>)
    requires forall i :: 0 <= i < |rows| ==> rows[i] != []
    ensures NonEmpty(rows) == rows
  {
    if rows != [] {
      NonEmptyIsAll(rows[..|rows| - 1]);
    }
  }

  ghost predicate Covered(samples: seq<Sample>, headers: seq<Header>) {
    forall i, k :: 0 <= i < |samples| && k in samples[i].keys ==> k in headers
  }

  lemma DeriveCovers(samples: seq<Sample>)
    ensures Covered(samples, Derive(samples))
  {
    forall i, k | 0 <= i < |samples| && k in samples[i].keys ensures k in Derive(samples) {
      DeriveHas(samples, k);
    }
  }

  lemma DataRowsOf(samples: seq<Sample>, headers: seq<Header>)
    requires headers != []
    ensures DataRows([headers] + Rows(samples, headers)) == Rows(samples, headers)
  {
    assert ([headers] + Rows(samples, headers))[1..] == Rows(samples, headers);
    NonEmptyIsAll(Rows(samples, headers));
  }

  lemma RefitRow(s: Sample, narrow: seq<Header>, headers: seq<Header>)
    requires IsMapping(s) && forall k :: k in s.keys ==> k in narrow
    ensures Refit(narrow, Row(s, narrow), headers) == Row(s, headers)
  {
    forall i | 0 <= i < |headers| ensures Refit(narrow, Row(s, narrow), headers)[i] == Row(s, headers)[i] {
      ReadsRow(s, narrow, headers[i]);
    }
  }

  lemma RefitRows(samples: seq<Sample>, narrow: seq<Header>, headers: seq<Header>)
    requires AllMappings(samples) && Covered(samples, narrow)
    ensures RefitAll(narrow, Rows(samples, narrow), headers) == Rows(samples, headers)
  {
    forall i | 0 <= i < |samples| ensures RefitAll(narrow, Rows(samples, narrow), headers)[i] == Rows(samples, headers)[i] {
      RefitRow(samples[i], narrow, headers);
    }
  }

  // ---------------------------------------------------------------- the growing table is the table written in one go

  lemma EnsureExpands(samples: seq<Sample>, block: seq<Sample>)
    requires AllMappings(samples) && HasField(samples)
    ensures var headers := Derive(samples + block);
            EnsureHeaders(Render(samples), block) == Table(headers, [headers] + Rows(samples, headers))
  {
    var narrow, headers := Derive(samples), Derive(samples + block);
    FieldsMakeHeaders(samples);
    DeriveAppends(samples, block);
    DeriveCovers(samples);
    DataRowsOf(samples, narrow);
    RefitRows(samples, narrow, headers);
    if Missing(narrow, Derive(block)) == [] {
      assert headers == narrow;
    }
  }

  lemma WriteExtends(samples: seq<Sample>, block: seq<Sample>)
    requires AllMappings(samples) && HasField(samples)
    ensures Write(Render(samples), block) == Render(samples + block)
  {
    if block == [] {
      assert samples + block == samples;
    } else {
      EnsureExpands(samples, block);
      var headers := Derive(samples + block);
      assert Rows(samples, headers) + Rows(block, headers) == Rows(samples + block, headers);
    }
  }

  /** The samples that survive: everything from the first block with a field on. */
  function Kept(blocks: seq<seq<Sample>>): seq<Sample> {
    if blocks == [] then []
    else
      var kept, last := Kept(blocks[..|blocks| - 1]), blocks[|blocks| - 1];
      if HasField(kept) then kept + last else if HasField(last) then last else []
  }

  ghost predicate Mapped(blocks: seq<seq<Sample>>) {
    forall i :: 0 <= i < |blocks| ==> AllMappings(blocks[i])
  }

  lemma {:induction false} KeptIsMapped(blocks: seq<seq<Sample>>)
    requires Mapped(blocks)
    ensures AllMappings(Kept(blocks)) && (Kept(blocks) != [] ==> HasField(Kept(blocks)))
  {
    if blocks != [] {
      KeptIsMapped(blocks[..|blocks| - 1]);
      var kept := Kept(blocks[..|blocks| - 1]);
      if i :| 0 <= i < |kept| && kept[i].keys != [] {
        assert (kept + blocks[|blocks| - 1])[i] == kept[i];
      }
    }
  }

  /** After any writes: the table of the surviving samples, or no headers and nothing to read when there are none. */
  lemma {:induction false} TableIsRendered(blocks: seq<seq<Sample>>)
    requires Mapped(blocks)
    ensures if Kept(blocks) != [] then WriteAll(blocks) == Render(Kept(blocks))
            else WriteAll(blocks).headers == [] && DataRows(WriteAll(blocks).file) == []
  {
    if blocks != [] {
      var n := |blocks| - 1;
      var front, last := blocks[..n], blocks[n];
      TableIsRendered(front);
      KeptIsMapped(front);
      FieldsMakeHeaders(last);
      if Kept(front) != [] {
        WriteExtends(Kept(front), last);
      }
    }
  }

  /** What a dictionary reader gets for a header in a data row. */
  function ReadCell(file: seq<seq<Cell>>, k: nat, h: Header): Cell
    requires k < |DataRows(file)|
  {
    Lookup(Fields(file), DataRows(file)[k], h)
  }

  /** Reading back gives one row for each surviving sample, its values under their headers, and blanks elsewhere. */
  lemma ReadsBack(blocks: seq<seq<Sample>>, h: Header)
    requires Mapped(blocks)
    ensures var file := WriteAll(blocks).file;
            && |DataRows(file)| == |Kept(blocks)|
            && forall k :: 0 <= k < |Kept(blocks)| ==>
                 ReadCell(file, k, h) == if h in Kept(blocks)[k].value then Kept(blocks)[k].value[h] else ""
  {
    TableIsRendered(blocks);
    KeptIsMapped(blocks);
    var kept := Kept(blocks);
    if kept != [] {
      var headers := Derive(kept);
      FieldsMakeHeaders(kept);
      DataRowsOf(kept, headers);
      DeriveCovers(kept);
      forall k | 0 <= k < |kept|
        ensures ReadCell(WriteAll(blocks).file, k, h) == if h in kept[k].value then kept[k].value[h] else ""
      {
        ReadsRow(kept[k], headers, h);
      }
    }
  }

  /** Later writes keep the headers there are, in place, and only add to their end. */
  lemma HeadersGrow(blocks: seq<seq<Sample>>, block: seq<Sample>)
    requires Mapped(blocks) && AllMappings(block)
    ensures WriteAll(blocks).headers <= WriteAll(blocks + [block]).headers
  {
    assert (blocks + [block])[..|blocks|] == blocks;
    TableIsRendered(blocks);
    KeptIsMapped(blocks);
    if Kept(blocks) != [] {
      WriteExtends(Kept(blocks), block);
      DeriveAppends(Kept(blocks), block);
    }
  }

  // ---------------------------------------------------------------- exactly when nothing is lost

  /** The first block with samples in it has a field. */
  ghost predicate StartsWithField(blocks: seq<seq<Sample>>) {
    forall i :: 0 <= i < |blocks| && blocks[i] != [] && Concat(blocks[..i]) == [] ==> HasField(blocks[i])
  }

  lemma {:induction false} KeptIsShort(blocks: seq<seq<Sample>>)
    ensures |Kept(blocks)| <= |Concat(blocks)|
  {
    if blocks != [] {
      KeptIsShort(blocks[..|blocks| - 1]);
    }
  }

  lemma FrontStartsWithField(blocks: seq<seq<Sample>>)
    requires blocks != []
    ensures var n := |blocks| - 1;
            StartsWithField(blocks) <==>
            StartsWithField(blocks[..n]) && (blocks[n] != [] && Concat(blocks[..n]) == [] ==> HasField(blocks[n]))
  {
    var n := |blocks| - 1;
    forall i | 0 <= i < n ensures blocks[..n][..i] == blocks[..i] && blocks[..n][i] == blocks[i] {
    }
    if StartsWithField(blocks[..n]) && (blocks[n] != [] && Concat(blocks[..n]) == [] ==> HasField(blocks[n])) {
      forall i | 0 <= i < |blocks| && blocks[i] != [] && Concat(blocks[..i]) == [] ensures HasField(blocks[i]) {
        if i < n {
          assert Concat(blocks[..n][..i]) == [];
        }
      }
    }
    if StartsWithField(blocks) {
      forall i | 0 <= i < n && blocks[..n][i] != [] && Concat(blocks[..n][..i]) == [] ensures HasField(blocks[..n][i]) {
        assert Concat(blocks[..i]) == [];
      }
    }
  }

  lemma SomethingKept(samples: seq<Sample>, block: seq<Sample>)
    requires HasField(samples)
    ensures HasField(samples + block)
  {
    var i :| 0 <= i < |samples| && samples[i].keys != [];
    assert (samples + block)[i] == samples[i];
  }

  /** Every sample survives exactly when the first block with samples has a field. */
  lemma {:induction false} NothingLostExactlyWhen(blocks: seq<seq<Sample>>)
    requires Mapped(blocks)
    ensures Kept(blocks) == Concat(blocks) <==> StartsWithField(blocks)
  {
    if blocks != [] {
      var n := |blocks| - 1;
      var front, last := blocks[..n], blocks[n];
      NothingLostExactlyWhen(front);
      FrontStartsWithField(blocks);
      KeptIsMapped(front);
      KeptIsShort(front);
      if Concat(front) == [] {
        assert Concat(front) + last == last;
      } else if Kept(front) == Concat(front) {
        SomethingKept(Kept(front), last);
      } else {
        LossStays(front, last);
      }
    }
  }

  lemma LossStays(front: seq<seq<Sample>>, last: seq<Sample>)
    requires Kept(front) != Concat(front) && Concat(front) != [] && |Kept(front)| <= |Concat(front)|
    ensures Kept(front + [last]) != Concat(front + [last])
  {
    assert (front + [last])[..|front|] == front;
    var kept, all := Kept(front), Concat(front);
    assert |kept| == |all| ==> (kept + last)[..|kept|] == kept && (all + last)[..|kept|] == all;
  }

  /** A first block without any field leaves no row behind once a later block has one. */
  lemma FieldlessBlockIsLost(bare: seq<Sample>, full: seq<Sample>, h: Header)
    requires AllMappings(bare) && AllMappings(full) && bare != [] && !HasField(bare) && HasField(full)
    ensures |DataRows(WriteAll([bare, full]).file)| == |full| < |Concat([bare, full])|
  {
    var blocks := [bare, full];
    assert [bare][..0] == [];
    assert Concat([bare]) == Concat([]) + bare;
    assert Kept([bare]) == [];
    assert blocks[..1] == [bare];
    assert Concat(blocks) == Concat([bare]) + full;
    ReadsBack(blocks, h);
  }

  // ---------------------------------------------------------------- from the stream to the file

  /**
   A sensor that starts with empty buffers and an open path, and whose first block has a field: after the
   tail flush its file reads back exactly the samples of the stream for its address, in order.
   */
  lemma StreamReadsBack(entries: seq<Entry>, samples: seq<Sample>, i: nat, h: Header)
    requires Sized(entries) && UniqueAddresses(entries) && i < |entries| && entries[i].open
    requires entries[i].buffer == [] && entries[i].queued == [] && AllMappings(samples)
    requires StartsWithField(Flush(IngestAll(entries, samples))[i].queued)
    ensures var mine := For(samples, entries[i].address);
            var file := WriteAll(Flush(IngestAll(entries, samples))[i].queued).file;
            && |DataRows(file)| == |mine|
            && forall k :: 0 <= k < |mine| ==> ReadCell(file, k, h) == if h in mine[k].value then mine[k].value[h] else ""
  {
    NothingLostOrReordered(entries, samples, i);
    var blocks := Flush(IngestAll(entries, samples))[i].queued;
    ForIsMapped(samples, entries[i].address);
    BlocksAreMapped(blocks);
    NothingLostExactlyWhen(blocks);
    ReadsBack(blocks, h);
  }

  lemma {:induction false} ForIsMapped(samples: seq<Sample>, a: Address)
    requires AllMappings(samples)
    ensures AllMappings(For(samples, a))
  {
    if samples != [] {
      ForIsMapped(samples[..|samples| - 1], a);
    }
  }

  lemma {:induction false} BlocksAreMapped(blocks: seq<seq<Sample>>)
    requires AllMappings(Concat(blocks))
    ensures Mapped(blocks)
  {
    if blocks != [] {
      var n := |blocks| - 1;
      var all := Concat(blocks);
      assert all == Concat(blocks[..n]) + blocks[n];
      forall k | 0 <= k < |Concat(blocks[..n])| ensures IsMapping(Concat(blocks[..n])[k]) {
        assert all[k] == Concat(blocks[..n])[k];
      }
      forall k | 0 <= k < |blocks[n]| ensures IsMapping(blocks[n][k]) {
        assert all[|Concat(blocks[..n])| + k] == blocks[n][k];
      }
      BlocksAreMapped(blocks[..n]);
      forall i | 0 <= i < |blocks| ensures AllMappings(blocks[i]) {
        if i < n {
          assert blocks[..n][i] == blocks[i];
        }
      }
    }
  }

  // ---------------------------------------------------------------- the program

  /** The row has the sample's value under each header that it has, and a blank under each other one. */
  predicate HoldsSample(headers: seq<Header>, row: seq<Cell>, s: Sample) {
    |row| == |headers| && forall j :: 0 <= j < |headers| ==> row[j] == if headers[j] in s.value then s.value[headers[j]] else ""
  }

  /** The rows hold these samples, one each and in order. */
  predicate HoldSamples(headers: seq<Header>, rows: seq<seq<Cell>>, samples: seq<Sample>) {
    |rows| == |samples| && forall i :: 0 <= i < |samples| ==> HoldsSample(headers, rows[i], samples[i])
  }

  lemma RowHoldsSample(headers: seq<Header>, s: Sample)
    ensures HoldsSample(headers, Row(s, headers), s)
  {
  }

  lemma RowsHoldSamples(headers: seq<Header>, samples: seq<Sample>)
    ensures HoldSamples(headers, Rows(samples, headers), samples)
  {
    forall i | 0 <= i < |samples| ensures HoldsSample(headers, Rows(samples, headers)[i], samples[i]) {
      RowHoldsSample(headers, samples[i]);
    }
  }

  /** The raw file of one sensor as the file manager keeps it. */
  class RawFile {
    var headers: seq<Header>
    var file: seq<seq<Cell>>

    function Abs(): Table
      reads this
    {
      Table(headers, file)
    }

    constructor ()
      ensures Abs() == Table([], [])
    {
      headers, file := [], [];
    }

    method WriteBlock(block: seq<Sample>)
      modifies this
      ensures Abs() == Write(old(Abs()), block)
      ensures |block| <= |file|
      ensures HoldSamples(headers, file[|file| - |block|..], block)
    {
      if block == [] {
        return;
      }
      EnsureRawHeaders(block);
      ghost var before := file;
      for i := 0 to |block|
        invariant headers == EnsureHeaders(old(Abs()), block).headers
        invariant file == before + Rows(block[..i], headers)
      {
        assert Rows(block[..i + 1], headers) == Rows(block[..i], headers) + [Row(block[i], headers)];
        file := file + [Row(block[i], headers)];
      }
      assert block[..|block|] == block;
      RowsHoldSamples(headers, block);
      assert file[|before|..] == Rows(block, headers);
    }

    method EnsureRawHeaders(block: seq<Sample>)
      modifies this
      ensures Abs() == EnsureHeaders(old(Abs()), block)
    {
      var derived := DeriveHeaders(block);
      if headers == [] {
        headers, file := derived, [derived];
        return;
      }
      var missing := MissingHeaders(headers, derived);
      if missing == [] {
        return;
      }
      var fields, rows := Fields(file), DataRows(file);
      headers := headers + missing;
      file := [headers];
      for i := 0 to |rows|
        invariant headers == old(headers) + missing
        invariant file == [headers] + RefitAll(fields, rows[..i], headers)
      {
        assert RefitAll(fields, rows[..i + 1], headers) == RefitAll(fields, rows[..i], headers) + [Refit(fields, rows[i], headers)];
        file := file + [Refit(fields, rows[i], headers)];
      }
      assert rows[..|rows|] == rows;
    }
  }

  method DeriveHeaders(samples: seq<Sample>) returns (headers: seq<Header>)
    ensures headers == Derive(samples)
  {
    headers := [];
    for i := 0 to |samples|
      invariant headers == Derive(samples[..i])
    {
      assert samples[..i + 1][..i] == samples[..i];
      var keys := samples[i].keys;
      for j := 0 to |keys|
        invariant headers == AddKeys(Derive(samples[..i]), keys[..j])
      {
        assert keys[..j + 1][..j] == keys[..j];
        if keys[j] !in headers {
          headers := headers + [keys[j]];
        }
      }
      assert keys[..|keys|] == keys;
    }
    assert samples[..|samples|] == samples;
  }

  method MissingHeaders(headers: seq<Header>, derived: seq<Header>) returns (missing: seq<Header>)
    ensures missing == Missing(headers, derived)
  {
    missing := [];
    for i := 0 to |derived|
      invariant missing == Missing(headers, derived[..i])
    {
      assert derived[..i + 1][..i] == derived[..i];
      if derived[i] !in headers {
        missing := missing + [derived[i]];
      }
    }
    assert derived[..|derived|] == derived;
  }
}
