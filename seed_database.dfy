/** The import script (backend/src/utils/seedDatabase.ts): clear the
    collection, read the dataset row by row, convert each row into a
    document, and insert the documents in batches of 10000. The collection
    is seen only through the operations the script calls on it, recorded in
    a ghost log. */
module SeedDatabase {
  import opened Wrappers
  import opened JsStrings

  const BatchSize: nat := 10000

  // ---------------------------------------------------------------------------
  // Tags
  // ---------------------------------------------------------------------------

  function TrimAll(xs: seq<string>): (r: seq<string>)
    ensures |r| == |xs|
    ensures forall i :: 0 <= i < |xs| ==> r[i] == Trim(xs[i])
  {
    if |xs| == 0 then [] else [Trim(xs[0])] + TrimAll(xs[1..])
  }

  /** `row.Tags ? row.Tags.split(',').map(tag => tag.trim()) : []`. */
  function ParseTags(tags: Option<string>): (r: seq<string>)
    ensures r == [] <==> tags.None? || tags.value == ""
    ensures tags.Some? && tags.value != "" ==> |r| == Occurrences(tags.value, ',') + 1
    ensures tags.Some? && tags.value != "" ==>
      forall i :: 0 <= i < |r| ==> r[i] == Trim(Split(tags.value, ',')[i])
    ensures forall i :: 0 <= i < |r| ==>
      ',' !in r[i] && (|r[i]| > 0 ==> !IsJsSpace(r[i][0]) && !IsJsSpace(r[i][|r[i]| - 1]))
  {
    if tags.None? || tags.value == "" then []
    else
      var pieces := Split(tags.value, ',');
      TrimAllKeepsOut(pieces, ',');
      TrimAll(pieces)
  }

  /** Trimming never brings in a character. */
  lemma TrimKeepsOut(s: string, c: char)
    requires c !in s
    ensures c !in Trim(s)
  {
    var i, j :| 0 <= i <= j <= |s| && Trim(s) == s[i..j];
    assert forall k :: 0 <= k < j - i ==> s[i..j][k] == s[i + k];
  }

  lemma TrimAllKeepsOut(xs: seq<string>, c: char)
    requires forall i :: 0 <= i < |xs| ==> c !in xs[i]
    ensures forall i :: 0 <= i < |xs| ==> c !in TrimAll(xs)[i]
  {
    forall i | 0 <= i < |xs|
      ensures c !in TrimAll(xs)[i]
    {
      TrimKeepsOut(xs[i], c);
    }
  }

  /** A list of tags that carry no comma and no surrounding white space,
      written with `", "` between them, reads back as the same list. */
  lemma {:induction false} ParseTagsOfList(tags: seq<string>)
    requires |tags| > 0 && tags != [""]
    requires forall i :: 0 <= i < |tags| ==> ',' !in tags[i] && Trim(tags[i]) == tags[i]
    ensures ParseTags(Some(JoinPadded(tags))) == tags
  {
    var padded := Padded(tags);
    PaddedNoComma(tags);
    SplitJoin(padded, ',');
    assert JoinPadded(tags) != "" by {
      JoinEmptyIff(padded, ',');
      assert padded[0] == tags[0];
      assert |tags| == 1 ==> tags == [tags[0]];
    }
    forall i | 0 <= i < |tags|
      ensures Trim(padded[i]) == tags[i]
    {
      if i > 0 {
        TrimLeadingBlank(tags[i]);
      }
    }
  }

  /** The tags with a blank before every one but the first. */
  function Padded(tags: seq<string>): (r: seq<string>)
    ensures |r| == |tags|
    ensures forall i :: 0 <= i < |r| ==> r[i] == if i == 0 then tags[0] else " " + tags[i]
  {
    seq(|tags|, i requires 0 <= i < |tags| => if i == 0 then tags[0] else " " + tags[i])
  }

  function JoinPadded(tags: seq<string>): string {
    Join(Padded(tags), ',')
  }

  lemma PaddedNoComma(tags: seq<string>)
    requires forall i :: 0 <= i < |tags| ==> ',' !in tags[i]
    ensures forall i :: 0 <= i < |Padded(tags)| ==> ',' !in Padded(tags)[i]
  {
    forall i | 0 <= i < |tags|
      ensures ',' !in Padded(tags)[i]
    {
      if i > 0 {
        assert forall k :: 0 < k < |" " + tags[i]| ==> (" " + tags[i])[k] == tags[i][k - 1];
      }
    }
  }

  lemma TrimLeadingBlank(s: string)
    requires Trim(s) == s
    ensures Trim(" " + s) == s
  {
    TrimIdle(s);
  }

  /** The query side keeps the blanks the import side trims: the same text
      splits into the padded pieces, which differ from the tags as soon as
      there are two of them. */
  lemma QueryKeepsBlanks(tags: seq<string>)
    requires |tags| > 1
    requires forall i :: 0 <= i < |tags| ==> ',' !in tags[i] && Trim(tags[i]) == tags[i]
    ensures Split(JoinPadded(tags), ',') == Padded(tags)
    ensures Split(JoinPadded(tags), ',') != ParseTags(Some(JoinPadded(tags)))
  {
    PaddedNoComma(tags);
    SplitJoin(Padded(tags), ',');
    ParseTagsOfList(tags);
    assert |Padded(tags)[1]| != |tags[1]|;
  }

  // ---------------------------------------------------------------------------
  // Documents
  // ---------------------------------------------------------------------------

  /** A parsed CSV row, by column header. */
  type Row = map<string, string>

  /** The document pushed for one row: the row itself, from which the other
      fields are read, and the parsed tags. */
  datatype SeedDocument = SeedDocument(row: Row, tags: seq<string>)

  function ToDocument(row: Row): (r: SeedDocument)
    ensures r.tags == [] <==> "Tags" !in row || row["Tags"] == ""
    ensures "Tags" in row && row["Tags"] != "" ==> |r.tags| == Occurrences(row["Tags"], ',') + 1
    ensures forall i :: 0 <= i < |r.tags| ==> ',' !in r.tags[i]
  {
    SeedDocument(row, ParseTags(if "Tags" in row then Some(row["Tags"]) else None))
  }

  function Documents(rows: seq<Row>): (r: seq<SeedDocument>)
    ensures |r| == |rows|
    ensures forall i :: 0 <= i < |rows| ==> r[i] == ToDocument(rows[i])
  {
    if |rows| == 0 then [] else Documents(rows[..|rows| - 1]) + [ToDocument(rows[|rows| - 1])]
  }

  // ---------------------------------------------------------------------------
  // Batches
  // ---------------------------------------------------------------------------

  function Concat(batches: seq<seq<SeedDocument>>): seq<SeedDocument> {
    if |batches| == 0 then [] else batches[0] + Concat(batches[1..])
  }

  /** The batches the script inserts for a sequence of documents: full
      batches in order, then the remainder if there is one. */
  function Chunks(docs: seq<SeedDocument>): (r: seq<seq<SeedDocument>>)
    ensures Concat(r) == docs
    ensures forall k :: 0 <= k < |r| ==> 0 < |r[k]| <= BatchSize
    ensures forall k :: 0 <= k < |r| - 1 ==> |r[k]| == BatchSize
    decreases |docs|
  {
    if |docs| == 0 then []
    else if |docs| <= BatchSize then
      assert Concat([docs]) == docs + Concat([]);
      [docs]
    else
      var rest := Chunks(docs[BatchSize..]);
      var r := [docs[..BatchSize]] + rest;
      assert r[1..] == rest;
      assert docs == docs[..BatchSize] + docs[BatchSize..];
      r
  }

  /** Chunking a whole number of batches and then the rest is chunking the
      whole. */
  lemma {:induction false} ChunksAppend(a: seq<SeedDocument>, b: seq<SeedDocument>)
    requires |a| % BatchSize == 0
    ensures Chunks(a + b) == Chunks(a) + Chunks(b)
    decreases |a|
  {
    if |a| > 0 {
      assert (a + b)[..BatchSize] == a[..BatchSize];
      assert (a + b)[BatchSize..] == a[BatchSize..] + b;
      ChunksAppend(a[BatchSize..], b);
    } else {
      assert a + b == b;
    }
  }

  /** There are `ceil(n / 10000)` batches; the last one holds the remainder
      of the division, or a full batch when there is none. */
  lemma {:induction false} ChunksCount(docs: seq<SeedDocument>)
    ensures |Chunks(docs)| == (|docs| + BatchSize - 1) / BatchSize
    ensures |docs| > 0 ==>
      |Chunks(docs)[|Chunks(docs)| - 1]| == if |docs| % BatchSize == 0 then BatchSize else |docs| % BatchSize
    decreases |docs|
  {
    var n := |docs|;
    if n > BatchSize {
      var rest := docs[BatchSize..];
      ChunksCount(rest);
      assert |rest| == n - BatchSize;
      assert (n + BatchSize - 1) / BatchSize == (|rest| + BatchSize - 1) / BatchSize + 1;
      assert n % BatchSize == |rest| % BatchSize;
      assert Chunks(docs) == [docs[..BatchSize]] + Chunks(rest);
    } else if n > 0 {
      assert (n + BatchSize - 1) / BatchSize == 1;
      assert n % BatchSize == 0 <==> n == BatchSize;
    }
  }

  // ---------------------------------------------------------------------------
  // The collection and the import loop
  // ---------------------------------------------------------------------------

  datatype Event = Cleared | Inserted(batch: seq<SeedDocument>)

  /** The events for inserting each batch in turn. */
  function Inserts(batches: seq<seq<SeedDocument>>): (r: seq<Event>)
    ensures |r| == |batches|
    ensures forall k :: 0 <= k < |r| ==> r[k] == Inserted(batches[k])
  {
    if |batches| == 0 then [] else Inserts(batches[..|batches| - 1]) + [Inserted(batches[|batches| - 1])]
  }

  /** The transactions collection, known by what was done to it. */
  class Collection {
    ghost var log: seq<Event>

    constructor ()
      ensures log == []
    {
      log := [];
    }

    /** `deleteMany({})`. */
    method DeleteMany()
      modifies this
      ensures log == old(log) + [Cleared]
    {
      log := log + [Cleared];
    }

    /** `insertMany(batch, { ordered: false })`. */
    method InsertMany(batch: seq<SeedDocument>)
      modifies this
      ensures log == old(log) + [Inserted(batch)]
    {
      log := log + [Inserted(batch)];
    }
  }

  /** Where the import stands after `i` rows: the inserted batches are the
      chunks of the first `total` documents, a whole number of batches, and
      the buffer holds the documents read since. */
  ghost predicate Progress(log: seq<Event>, prefix: seq<Event>, docs: seq<SeedDocument>,
                           buffer: seq<SeedDocument>, total: nat, i: nat)
  {
    && i <= |docs|
    && total + |buffer| == i
    && |buffer| < BatchSize
    && total % BatchSize == 0
    && buffer == docs[total..i]
    && log == prefix + Inserts(Chunks(docs[..total]))
  }

  /** One turn of the loop: push the row's document, and insert the buffer
      and empty it once it is full. */
  method AddRow(db: Collection, buffer: seq<SeedDocument>, total: nat, row: Row,
                ghost prefix: seq<Event>, ghost docs: seq<SeedDocument>, ghost i: nat)
    returns (buffer': seq<SeedDocument>, total': nat)
    requires Progress(db.log, prefix, docs, buffer, total, i)
    requires i < |docs| && docs[i] == ToDocument(row)
    modifies db
    ensures Progress(db.log, prefix, docs, buffer', total', i + 1)
  {
    buffer' := buffer + [ToDocument(row)];
    total' := total;
    if |buffer'| >= BatchSize {
      FlushKeepsProgress(db.log, prefix, docs, buffer, total, i);
      db.InsertMany(buffer');
      total' := total + |buffer'|;
      buffer' := [];
    } else {
      PushKeepsProgress(db.log, prefix, docs, buffer, total, i);
    }
  }

  /** A push that leaves the buffer short of a batch keeps the loop's
      invariant. */
  lemma PushKeepsProgress(log: seq<Event>, prefix: seq<Event>, docs: seq<SeedDocument>,
                          buffer: seq<SeedDocument>, total: nat, i: nat)
    requires Progress(log, prefix, docs, buffer, total, i)
    requires i < |docs| && |buffer| + 1 < BatchSize
    ensures Progress(log, prefix, docs, buffer + [docs[i]], total, i + 1)
  {
    SliceExtend(docs, total, i);
  }

  /** A slice grown by one element at its end. */
  lemma SliceExtend<T>(s: seq<T>, from: nat, to: nat)
    requires from <= to < |s|
    ensures s[from..to + 1] == s[from..to] + [s[to]]
  {
  }

  /** A push that fills the buffer, followed by its insert, keeps the loop's
      invariant with an empty buffer. */
  lemma FlushKeepsProgress(log: seq<Event>, prefix: seq<Event>, docs: seq<SeedDocument>,
                           buffer: seq<SeedDocument>, total: nat, i: nat)
    requires Progress(log, prefix, docs, buffer, total, i)
    requires i < |docs| && |buffer| + 1 == BatchSize
    ensures Progress(log + [Inserted(buffer + [docs[i]])], prefix, docs, [], total + BatchSize, i + 1)
  {
    var full := buffer + [docs[i]];
    SliceExtend(docs, total, i);
    FlushFull(docs, total, full);
    ConcatAssoc(prefix, Inserts(Chunks(docs[..total])), [Inserted(full)]);
    NextBatchBoundary(total);
  }

  /** The import: the collection is cleared, then the documents of the rows
      are inserted in read order, in the batches `Chunks` describes, and the
      count of inserted documents is the number of rows. */
  method Seed(db: Collection, rows: seq<Row>) returns (totalInserted: nat)
    modifies db
    ensures db.log == old(db.log) + [Cleared] + Inserts(Chunks(Documents(rows)))
    ensures totalInserted == |rows|
  {
    db.DeleteMany();
    ghost var prefix := db.log;
    ghost var docs := Documents(rows);
    var transactions: seq<SeedDocument> := [];
    totalInserted := 0;
    var i := 0;
    while i < |rows|
      invariant i <= |rows|
      invariant Progress(db.log, prefix, docs, transactions, totalInserted, i)
    {
      transactions, totalInserted := AddRow(db, transactions, totalInserted, rows[i], prefix, docs, i);
      i := i + 1;
    }
    totalInserted := Finish(db, transactions, totalInserted, prefix, docs);
  }

  /** After the last row: insert what is left in the buffer, if anything. */
  method Finish(db: Collection, buffer: seq<SeedDocument>, total: nat,
                ghost prefix: seq<Event>, ghost docs: seq<SeedDocument>)
    returns (total': nat)
    requires Progress(db.log, prefix, docs, buffer, total, |docs|)
    modifies db
    ensures db.log == prefix + Inserts(Chunks(docs))
    ensures total' == |docs|
  {
    total' := total;
    if |buffer| > 0 {
      FlushRest(docs, total, buffer);
      ConcatAssoc(prefix, Inserts(Chunks(docs[..total])), [Inserted(buffer)]);
      db.InsertMany(buffer);
      total' := total + |buffer|;
    } else {
      assert docs[..total] == docs;
    }
  }

  /** A whole number of batches plus one more is still a whole number. */
  lemma NextBatchBoundary(done: nat)
    requires done % BatchSize == 0
    ensures (done + BatchSize) % BatchSize == 0
  {
  }

  /** A full buffer is the next batch. */
  lemma FlushFull(docs: seq<SeedDocument>, done: nat, buffer: seq<SeedDocument>)
    requires done % BatchSize == 0 && |buffer| == BatchSize
    requires done + |buffer| <= |docs| && buffer == docs[done..done + |buffer|]
    ensures Inserts(Chunks(docs[..done + |buffer|])) == Inserts(Chunks(docs[..done])) + [Inserted(buffer)]
  {
    assert docs[..done + |buffer|] == docs[..done] + buffer;
    ChunksAppend(docs[..done], buffer);
    assert Chunks(buffer) == [buffer];
    InsertsAppend(Chunks(docs[..done]), buffer);
  }

  /** A partial buffer left at the end is the last batch. */
  lemma FlushRest(docs: seq<SeedDocument>, done: nat, buffer: seq<SeedDocument>)
    requires done % BatchSize == 0 && 0 < |buffer| < BatchSize
    requires done + |buffer| == |docs| && buffer == docs[done..]
    ensures Inserts(Chunks(docs)) == Inserts(Chunks(docs[..done])) + [Inserted(buffer)]
  {
    assert docs == docs[..done] + buffer;
    ChunksAppend(docs[..done], buffer);
    assert Chunks(buffer) == [buffer];
    InsertsAppend(Chunks(docs[..done]), buffer);
  }

  lemma InsertsAppend(batches: seq<seq<SeedDocument>>, batch: seq<SeedDocument>)
    ensures Inserts(batches + [batch]) == Inserts(batches) + [Inserted(batch)]
  {
    assert (batches + [batch])[..|batches|] == batches;
  }

  /** What the log of one import says: the clear comes first, every batch but
      the last is full, the last holds between one and 10000 documents, and
      the batches together are the rows' documents in read order. */
  lemma SeedLogShape(rows: seq<Row>)
    ensures var batches := Chunks(Documents(rows));
            && Concat(batches) == Documents(rows)
            && (forall k :: 0 <= k < |batches| - 1 ==> |batches[k]| == BatchSize)
            && (|batches| > 0 ==> 0 < |batches[|batches| - 1]| <= BatchSize)
            && (|rows| % BatchSize != 0 ==> |batches[|batches| - 1]| == |rows| % BatchSize)
  {
    ChunksCount(Documents(rows));
  }
}
