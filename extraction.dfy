/** Result extraction (backend/Services/BinScraperService.cs:144-191,
    backend/app/main.py:143-174): every table, every row, every row with at least
    two `td` cells becomes one collection, in document order; the next collection
    colour is the first collection's colour, or "Unknown" when there is none. */
module Extraction {

  import opened Model
  import opened Text
  import opened Classification

  /** The collection a row with at least two cells becomes: trimmed label, its colour, trimmed date. */
  function Entry(row: Row): BinCollection
    requires |row| >= 2
  {
    var binType := Trim(row[0]);
    BinCollection(binType, ColourOf(binType), Scraped(Trim(row[1])))
  }

  /** Specification of the row loop: one entry per row having at least two cells, in row order. */
  function ExtractRows(rows: seq<Row>): seq<BinCollection>
  {
    if rows == [] then []
    else (if |rows[0]| >= 2 then [Entry(rows[0])] else []) + ExtractRows(rows[1..])
  }

  /** Specification of the table loop: the tables' extractions, one after the other. */
  function Extract(page: Page): seq<BinCollection>
  {
    if page == [] then [] else ExtractRows(page[0]) + Extract(page[1..])
  }

  /** All rows of the page in document order: the first table's rows, then the second's, and so on. */
  function Flatten(page: Page): seq<Row>
  {
    if page == [] then [] else page[0] + Flatten(page[1..])
  }

  /** The rows with at least two cells, in their original order. */
  function KeptRows(rows: seq<Row>): (kept: seq<Row>)
    ensures |kept| <= |rows|
    ensures forall r :: r in kept <==> r in rows && |r| >= 2
  {
    if rows == [] then []
    else (if |rows[0]| >= 2 then [rows[0]] else []) + KeptRows(rows[1..])
  }

  /** The shape every response of the service has: known colours only, and the
      next collection colour taken from the first collection. */
  predicate WellFormed(response: BinLookupResponse)
  {
    (forall k :: 0 <= k < |response.collections| ==> response.collections[k].color in Colours)
    && response.nextCollectionColor in Colours
    && response.nextCollectionColor ==
         (if |response.collections| > 0 then response.collections[0].color else "Unknown")
  }

  lemma {:induction false} ExtractRowsAppend(a: seq<Row>, b: seq<Row>)
    ensures ExtractRows(a + b) == ExtractRows(a) + ExtractRows(b)
  {
    if a != [] {
      assert (a + b)[1..] == a[1..] + b;
      ExtractRowsAppend(a[1..], b);
    } else {
      assert a + b == b;
    }
  }

  /** Extraction of two consecutive runs of tables is the concatenation of their extractions. */
  lemma {:induction false} ExtractAppend(p: Page, q: Page)
    ensures Extract(p + q) == Extract(p) + Extract(q)
  {
    if p != [] {
      assert (p + q)[1..] == p[1..] + q;
      ExtractAppend(p[1..], q);
    } else {
      assert p + q == q;
    }
  }

  /** Extraction works on the rows of all tables in document order (table, then row). */
  lemma {:induction false} ExtractIsDocumentOrder(page: Page)
    ensures Extract(page) == ExtractRows(Flatten(page))
  {
    if page != [] {
      ExtractIsDocumentOrder(page[1..]);
      ExtractRowsAppend(page[0], Flatten(page[1..]));
    }
  }

  /** `collections` are the entries of `kept`, one for one and in order. */
  predicate EntriesOf(collections: seq<BinCollection>, kept: seq<Row>)
  {
    |collections| == |kept|
    && forall k :: 0 <= k < |kept| ==> |kept[k]| >= 2 && collections[k] == Entry(kept[k])
  }

  lemma {:induction false} ExtractRowsIsEntryOfKept(rows: seq<Row>)
    ensures EntriesOf(ExtractRows(rows), KeptRows(rows))
  {
    if rows != [] {
      ExtractRowsIsEntryOfKept(rows[1..]);
      if |rows[0]| >= 2 {
        EntryThenRest(ExtractRows(rows[1..]), KeptRows(rows[1..]), rows[0]);
      }
    }
  }

  /** One step of `ExtractRowsIsEntryOfKept`: putting a kept row in front keeps the correspondence. */
  lemma EntryThenRest(rest: seq<BinCollection>, keptRest: seq<Row>, row: Row)
    requires |row| >= 2
    requires EntriesOf(rest, keptRest)
    ensures EntriesOf([Entry(row)] + rest, [row] + keptRest)
  {
  }

  /** Exactly one collection per row having at least two cells, in table-then-row order:
      the k-th collection is made from the k-th such row. */
  lemma ExtractIsOnePerKeptRow(page: Page)
    ensures EntriesOf(Extract(page), KeptRows(Flatten(page)))
  {
    ExtractIsDocumentOrder(page);
    ExtractRowsIsEntryOfKept(Flatten(page));
  }

  /** A collection as extraction produces it: a label without surrounding white space, its classified
      colour, and a date taken from the page. */
  predicate IsExtracted(c: BinCollection)
  {
    (c.binType == [] || (!IsWhiteSpace(c.binType[0]) && !IsWhiteSpace(c.binType[|c.binType| - 1])))
    && c.color == ColourOf(c.binType) && c.color in Colours && c.nextCollection.Scraped?
  }

  /** A row's collection: its label is the first cell with the white space around it removed,
      its colour is that label's, and its date is the trimmed second cell. */
  lemma EntryIsExtracted(row: Row)
    requires |row| >= 2
    ensures IsExtracted(Entry(row))
    ensures Entry(row).nextCollection == Scraped(Trim(row[1]))
    ensures var binType := Entry(row).binType;
            exists i :: 0 <= i <= |row[0]| - |binType| && OccursAt(row[0], binType, i)
                        && AllWhiteSpace(row[0][..i]) && AllWhiteSpace(row[0][i + |binType|..])
  {
    TrimIsInfix(row[0]);
  }

  lemma {:induction false} ExtractRowsAreExtracted(rows: seq<Row>)
    ensures forall c :: c in ExtractRows(rows) ==> IsExtracted(c)
  {
    if rows != [] {
      ExtractRowsAreExtracted(rows[1..]);
      if |rows[0]| >= 2 {
        EntryIsExtracted(rows[0]);
      }
    }
  }

  /** Every extracted collection has a label without white space at either end, the colour that
      label classifies to, and a date read from the page. */
  lemma ExtractedEntriesAreTrimmedAndClassified(page: Page)
    ensures forall c :: c in Extract(page) ==> IsExtracted(c)
  {
    ExtractIsDocumentOrder(page);
    ExtractRowsAreExtracted(Flatten(page));
  }

  /** The nested table/row loops that append to `collections`, then the choice of the next colour. */
  method ExtractCollections(page: Page) returns (collections: seq<BinCollection>, nextCollectionColor: string)
    ensures collections == Extract(page)
    ensures nextCollectionColor == (if |collections| > 0 then collections[0].color else "Unknown")
    ensures WellFormed(BinLookupResponse("", collections, nextCollectionColor))
  {
    collections := [];
    nextCollectionColor := "Unknown";
    var t := 0;
    while t < |page|
      invariant 0 <= t <= |page|
      invariant collections == Extract(page[..t])
    {
      var rows := page[t];
      ghost var done := Extract(page[..t]);
      var r := 0;
      while r < |rows|
        invariant 0 <= r <= |rows|
        invariant collections == done + ExtractRows(rows[..r])
      {
        var cells := rows[r];
        if |cells| >= 2 {
          var binType := Trim(cells[0]);
          var collectionDate := Trim(cells[1]);
          var color := ColourOf(binType);
          collections := collections + [BinCollection(binType, color, Scraped(collectionDate))];
        }
        assert ExtractRows(rows[..r + 1]) == ExtractRows(rows[..r]) + (if |cells| >= 2 then [Entry(cells)] else []) by {
          assert rows[..r + 1] == rows[..r] + [cells];
          ExtractRowsAppend(rows[..r], [cells]);
        }
        r := r + 1;
      }
      assert Extract(page[..t + 1]) == Extract(page[..t]) + ExtractRows(rows[..r]) by {
        assert rows[..r] == rows;
        assert page[..t + 1] == page[..t] + [rows];
        assert Extract([rows]) == ExtractRows(rows);
        ExtractAppend(page[..t], [rows]);
      }
      t := t + 1;
    }
    assert page[..t] == page;
    if |collections| > 0 {
      nextCollectionColor := collections[0].color;
    }
    assert WellFormed(BinLookupResponse("", collections, nextCollectionColor)) by {
      ExtractedEntriesAreTrimmedAndClassified(page);
      assert forall k :: 0 <= k < |collections| ==> collections[k] in collections;
    }
  }
}
