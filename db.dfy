/** The change-detection table of app/db.py: one row per item id holding the
    last seen fields, a digest of them and an update flag. */
module ChangeDb {
  import opened Text
  import opened Collections

  // ---------------------------------------------------------------------
  // compute_hash
  // ---------------------------------------------------------------------

  /** How an f-string renders the optional thumbnail URL. */
  function ThumbText(thumbUrl: Option<string>): string {
    if thumbUrl.Some? then thumbUrl.value else "None"
  }

  /** The text `compute_hash` digests: the three fields joined by '|'. */
  function Joined(title: string, url: string, thumbUrl: Option<string>): (s: string)
    ensures |s| == |title| + |url| + |ThumbText(thumbUrl)| + 2
  {
    title + "|" + url + "|" + ThumbText(thumbUrl)
  }

  /** `compute_hash`; `digest` stands for the SHA-256 hex digest. */
  function ComputeHash(digest: string -> string, title: string, url: string, thumbUrl: Option<string>): string {
    digest(Joined(title, url, thumbUrl))
  }

  /** Triples with the same joined text hash alike whatever the digest is. */
  lemma SameJoinedSameHash(digest: string -> string, t1: string, u1: string, h1: Option<string>,
                           t2: string, u2: string, h2: Option<string>)
    requires Joined(t1, u1, h1) == Joined(t2, u2, h2)
    ensures ComputeHash(digest, t1, u1, h1) == ComputeHash(digest, t2, u2, h2)
  {
  }

  /** The joined text does not tell a '|' in the title from the separator,
      nor a missing thumbnail from the text "None". */
  lemma JoinedCollisions(a: string, b: string, c: string)
    ensures Joined(a + "|" + b, c, None) == Joined(a, b + "|" + c, None)
    ensures Joined(a, b, None) == Joined(a, b, Some("None"))
  {
    assert (a + "|" + b) + "|" + c == a + "|" + (b + "|" + c);
  }

  // ---------------------------------------------------------------------
  // The table
  // ---------------------------------------------------------------------

  /** The columns of `items` after the key. */
  datatype Row = Row(title: string, url: string, thumbUrl: Option<string>, localFolder: string,
                     lastSeenTs: int, contentHash: string, hasUpdate: int)

  /** The flag `upsert_item` computes: 1 exactly when a row exists and its
      stored digest differs from the new one. */
  function UpdateFlag(rows: map<string, Row>, itemId: string, newHash: string): (f: int)
    ensures f == 0 || f == 1
    ensures itemId !in rows ==> f == 0
    ensures itemId in rows ==> (f == 1 <==> rows[itemId].contentHash != newHash)
  {
    if itemId in rows && rows[itemId].contentHash != newHash then 1 else 0
  }

  /** The row `INSERT OR REPLACE` writes. */
  function NewRow(digest: string -> string, rows: map<string, Row>, itemId: string, title: string, url: string,
                  thumbUrl: Option<string>, folder: string, now: int): Row
  {
    var h := ComputeHash(digest, title, url, thumbUrl);
    Row(title, url, thumbUrl, folder, now, h, UpdateFlag(rows, itemId, h))
  }

  /** The table after `upsert_item`. */
  function Upserted(digest: string -> string, rows: map<string, Row>, itemId: string, title: string, url: string,
                    thumbUrl: Option<string>, folder: string, now: int): (r: map<string, Row>)
    ensures r.Keys == rows.Keys + {itemId}
    ensures forall k :: k in rows && k != itemId ==> r[k] == rows[k]
  {
    rows[itemId := NewRow(digest, rows, itemId, title, url, thumbUrl, folder, now)]
  }

  /** The table after `clear_update_flag`. */
  function Cleared(rows: map<string, Row>, itemId: string): (r: map<string, Row>)
    ensures r.Keys == rows.Keys
    ensures forall k :: k in rows && k != itemId ==> r[k] == rows[k]
    ensures itemId in rows ==> r[itemId] == rows[itemId].(hasUpdate := 0)
  {
    if itemId in rows then rows[itemId := rows[itemId].(hasUpdate := 0)] else rows
  }

  /** A first upsert inserts the row with the new fields and flag 0. */
  lemma UpsertNew(digest: string -> string, rows: map<string, Row>, itemId: string, title: string, url: string,
                  thumbUrl: Option<string>, folder: string, now: int)
    requires itemId !in rows
    ensures var r := Upserted(digest, rows, itemId, title, url, thumbUrl, folder, now);
            r[itemId] == Row(title, url, thumbUrl, folder, now, ComputeHash(digest, title, url, thumbUrl), 0)
  {
  }

  /** Upserting the same joined text twice never flags the second time, and
      the stored flag is reset to 0 even if it was 1. */
  lemma {:induction false} UnchangedResetsFlag(digest: string -> string, rows: map<string, Row>, itemId: string,
                                               t1: string, u1: string, h1: Option<string>, f1: string, n1: int,
                                               t2: string, u2: string, h2: Option<string>, f2: string, n2: int)
    requires Joined(t1, u1, h1) == Joined(t2, u2, h2)
    ensures var r1 := Upserted(digest, rows, itemId, t1, u1, h1, f1, n1);
            var h := ComputeHash(digest, t2, u2, h2);
            UpdateFlag(r1, itemId, h) == 0
            && Upserted(digest, r1, itemId, t2, u2, h2, f2, n2)[itemId].hasUpdate == 0
  {
    SameJoinedSameHash(digest, t1, u1, h1, t2, u2, h2);
  }

  /** A changed digest flags the item; clearing resets the flag and keeps
      the digest. */
  lemma ChangedFlagsThenClear(digest: string -> string, rows: map<string, Row>, itemId: string, title: string,
                              url: string, thumbUrl: Option<string>, folder: string, now: int)
    requires itemId in rows && rows[itemId].contentHash != ComputeHash(digest, title, url, thumbUrl)
    ensures var r := Upserted(digest, rows, itemId, title, url, thumbUrl, folder, now);
            r[itemId].hasUpdate == 1 && Cleared(r, itemId)[itemId].hasUpdate == 0
            && Cleared(r, itemId)[itemId].contentHash == r[itemId].contentHash
  {
  }

  /** Clearing is idempotent. */
  lemma ClearTwice(rows: map<string, Row>, itemId: string)
    ensures Cleared(Cleared(rows, itemId), itemId) == Cleared(rows, itemId)
  {
  }

  // ---------------------------------------------------------------------
  // list_items
  // ---------------------------------------------------------------------

  /** `models.BoothItem`; `updatedAt` is the timestamp `utcfromtimestamp`
      formats. */
  datatype BoothItem = BoothItem(itemId: string, name: string, url: string, thumbnailUrl: Option<string>,
                                 folder: Option<string>, updatedAt: Option<int>)

  /** One fetched row as the `BoothItem` `list_items` builds. */
  function ToBoothItem(itemId: string, r: Row): (b: BoothItem)
    ensures b.itemId == itemId && b.name == r.title && b.url == r.url
    ensures b.thumbnailUrl.None? <==> r.thumbUrl.None?
    ensures r.thumbUrl.Some? ==> b.thumbnailUrl == r.thumbUrl
  {
    BoothItem(itemId, r.title, r.url, r.thumbUrl, Some(r.localFolder), Some(r.lastSeenTs))
  }

  /** A sequence of keys holding every key of the table exactly once: the
      order in which SQLite happens to scan it. */
  predicate Enumerates(order: seq<string>, rows: map<string, Row>) {
    |order| == |rows| && (forall i :: 0 <= i < |order| ==> order[i] in rows)
    && forall k :: k in rows ==> k in order
  }

  function RowsIn(order: seq<string>, rows: map<string, Row>): (rs: seq<(string, Row)>)
    requires forall i :: 0 <= i < |order| ==> order[i] in rows
    ensures |rs| == |order|
    ensures forall i :: 0 <= i < |rs| ==> rs[i] == (order[i], rows[order[i]])
  {
    if order == [] then []
    else RowsIn(order[..|order| - 1], rows) + [(order[|order| - 1], rows[order[|order| - 1]])]
  }

  function TsKey(e: (string, Row)): SortKey {
    IntKey(e.1.lastSeenTs)
  }

  /** `SELECT * FROM items ORDER BY last_seen_ts DESC`: the scan, sorted by
      non-increasing timestamp. */
  function Selected(order: seq<string>, rows: map<string, Row>): seq<(string, Row)>
    requires forall i :: 0 <= i < |order| ==> order[i] in rows
  {
    StableSort(RowsIn(order, rows), TsKey, true)
  }

  function ToBoothItems(rs: seq<(string, Row)>): (out: seq<BoothItem>)
    ensures |out| == |rs|
  {
    if rs == [] then []
    else ToBoothItems(rs[..|rs| - 1]) + [ToBoothItem(rs[|rs| - 1].0, rs[|rs| - 1].1)]
  }

  /** The loop of `list_items`: one item per selected row, in order. */
  method BoothItemsOf(rs: seq<(string, Row)>) returns (out: seq<BoothItem>)
    ensures out == ToBoothItems(rs)
  {
    out := [];
    var i := 0;
    while i < |rs|
      invariant 0 <= i <= |rs|
      invariant out == ToBoothItems(rs[..i])
    {
      var row := rs[i];
      assert rs[..i + 1][..i] == rs[..i] && rs[..i + 1][i] == row;
      out := out + [ToBoothItem(row.0, row.1)];
      i := i + 1;
    }
    assert rs[..i] == rs;
  }

  lemma {:induction false} ToBoothItemsAt(rs: seq<(string, Row)>, i: nat)
    requires i < |rs|
    ensures ToBoothItems(rs)[i] == ToBoothItem(rs[i].0, rs[i].1)
  {
    if i < |rs| - 1 {
      ToBoothItemsAt(rs[..|rs| - 1], i);
    }
  }

  /** Rows of the table, one per key, by non-increasing timestamp. */
  predicate IsSelection(rs: seq<(string, Row)>, rows: map<string, Row>) {
    |rs| == |rows|
    && (forall i :: 0 <= i < |rs| ==> rs[i].0 in rows && rs[i].1 == rows[rs[i].0])
    && (forall k :: k in rows ==> exists i :: 0 <= i < |rs| && rs[i].0 == k)
    && forall i, j :: 0 <= i < j < |rs| ==> rs[i].1.lastSeenTs >= rs[j].1.lastSeenTs
  }

  /** One item per row of the table, each built from its row, newest first. */
  predicate IsListing(out: seq<BoothItem>, rows: map<string, Row>) {
    |out| == |rows|
    && (forall i :: 0 <= i < |out| ==> out[i].itemId in rows && out[i] == ToBoothItem(out[i].itemId, rows[out[i].itemId]))
    && (forall k :: k in rows ==> exists i :: 0 <= i < |out| && out[i].itemId == k)
    && forall i, j :: 0 <= i < j < |out| ==> rows[out[i].itemId].lastSeenTs >= rows[out[j].itemId].lastSeenTs
  }

  /** The query returns every row once, newest first. */
  lemma SelectedRows(order: seq<string>, rows: map<string, Row>)
    requires Enumerates(order, rows)
    ensures IsSelection(Selected(order, rows), rows)
  {
    var list := RowsIn(order, rows);
    var rs := Selected(order, rows);
    assert |rs| == |list| by {
      assert |multiset(rs)| == |multiset(list)|;
    }
    forall i | 0 <= i < |rs| ensures rs[i].0 in rows && rs[i].1 == rows[rs[i].0] {
      assert rs[i] in multiset(list);
      var j :| 0 <= j < |list| && list[j] == rs[i];
    }
    forall k | k in rows ensures exists i :: 0 <= i < |rs| && rs[i].0 == k {
      var j :| 0 <= j < |order| && order[j] == k;
      assert list[j] in multiset(rs);
      var i :| 0 <= i < |rs| && rs[i] == list[j];
    }
    forall i, j | 0 <= i < j < |rs| ensures rs[i].1.lastSeenTs >= rs[j].1.lastSeenTs {
      assert !Before(TsKey(rs[j]), TsKey(rs[i]), true);
    }
  }

  /** Item `i` of the conversion is built from row `i` of the selection. */
  lemma ListedAt(rs: seq<(string, Row)>, rows: map<string, Row>, i: nat)
    requires forall i :: 0 <= i < |rs| ==> rs[i].0 in rows && rs[i].1 == rows[rs[i].0]
    requires i < |rs|
    ensures ToBoothItems(rs)[i].itemId == rs[i].0
    ensures ToBoothItems(rs)[i] == ToBoothItem(rs[i].0, rows[rs[i].0])
  {
    ToBoothItemsAt(rs, i);
  }

  /** The conversion keeps the keys of the selection. */
  lemma ListedIds(rs: seq<(string, Row)>, rows: map<string, Row>)
    requires forall i :: 0 <= i < |rs| ==> rs[i].0 in rows && rs[i].1 == rows[rs[i].0]
    ensures forall i :: 0 <= i < |rs| ==> ToBoothItems(rs)[i].itemId == rs[i].0
    ensures forall i :: 0 <= i < |rs| ==> ToBoothItems(rs)[i] == ToBoothItem(rs[i].0, rows[rs[i].0])
  {
    forall i | 0 <= i < |rs|
      ensures ToBoothItems(rs)[i].itemId == rs[i].0 && ToBoothItems(rs)[i] == ToBoothItem(rs[i].0, rows[rs[i].0])
    {
      ListedAt(rs, rows, i);
    }
  }

  /** Converting the selected rows one by one lists the table. */
  lemma ListedItems(rs: seq<(string, Row)>, rows: map<string, Row>)
    requires IsSelection(rs, rows)
    ensures IsListing(ToBoothItems(rs), rows)
  {
    ListedIds(rs, rows);
  }

  /** `list_items` lists the table: one item per row, each built from its
      row, newest first. */
  lemma ListItemsLists(order: seq<string>, rows: map<string, Row>)
    requires Enumerates(order, rows)
    ensures IsListing(ToBoothItems(Selected(order, rows)), rows)
  {
    SelectedRows(order, rows);
    ListedItems(Selected(order, rows), rows);
  }

  // ---------------------------------------------------------------------
  // The DB object
  // ---------------------------------------------------------------------

  /** `DB`: the `items` table of the SQLite file, keyed by `item_id`. */
  class DB {
    const digest: string -> string
    var rows: map<string, Row>

    /** A freshly created schema holds no rows. */
    constructor(digest: string -> string)
      ensures this.digest == digest && rows == map[]
    {
      this.digest := digest;
      rows := map[];
    }

    /** `upsert_item` at time `now`: compare the stored digest with the new
        one, then replace the row. */
    method UpsertItem(itemId: string, title: string, url: string, thumbUrl: Option<string>,
                      folder: string, now: int) returns (hasUpdate: int)
      modifies this
      ensures hasUpdate == UpdateFlag(old(rows), itemId, ComputeHash(digest, title, url, thumbUrl))
      ensures rows == Upserted(digest, old(rows), itemId, title, url, thumbUrl, folder, now)
    {
      var newHash := ComputeHash(digest, title, url, thumbUrl);
      var row: Option<string> := if itemId in rows then Some(rows[itemId].contentHash) else None;
      hasUpdate := 0;
      if row.None? {
        hasUpdate := 0;
      } else if row.value != newHash {
        hasUpdate := 1;
      }
      rows := rows[itemId := Row(title, url, thumbUrl, folder, now, newHash, hasUpdate)];
    }

    /** `clear_update_flag`: an unknown id changes nothing. */
    method ClearUpdateFlag(itemId: string)
      modifies this
      ensures rows == Cleared(old(rows), itemId)
    {
      if itemId in rows {
        rows := rows[itemId := rows[itemId].(hasUpdate := 0)];
      }
    }

    /** `list_items`, with the table scanned in `order`: one item per row,
        newest first, the thumbnail `None` exactly when the stored one is. */
    method ListItems(order: seq<string>) returns (out: seq<BoothItem>)
      requires Enumerates(order, rows)
      ensures out == ToBoothItems(Selected(order, rows))
    {
      out := BoothItemsOf(Selected(order, rows));
    }
  }
}
