/** dev/agent/internal/txmanager: the agent journal and its derived index of active rows. */
module Journal {
  import opened Basics
  import opened Strings

  type Bucket = map<string, string>
  type Buckets = map<string, Bucket>

  /** The headers of a stored row, as far as its JSON parses. */
  datatype Headers = Headers(
    intentStatus: string -> Option<string>,
    workDone: string -> Option<(bool, string)>)   // done flag and result

  const VERSION := "1"
  const VERSION_KEY := "active_index_version"
  const PRESENT := "\U{1}"

  function ActiveIndex(bucket: string): string
  {
    if bucket == "intents" then "active_intents" else if bucket == "work" then "active_work" else ""
  }

  /** activeRow: None where the source returns an error. */
  function ActiveRow(h: Headers, bucket: string, row: string): Option<bool>
  {
    if bucket == "intents" then
      var s := h.intentStatus(row);
      if s.None? then None
      else if s.value in {"queued", "pending", "failed"} then Some(true)
      else if s.value in {"confirmed", "satisfied", "cancelled"} then Some(false)
      else None
    else if bucket == "work" then
      var w := h.workDone(row);
      if w.None? then None else Some(!w.value.0 || w.value.1 == "CASE_STATUS_EXPIRED")
    else None
  }

  /** Every row of the bucket has a header that classifies it. */
  ghost predicate Readable(h: Headers, bucket: string, rows: Bucket)
  {
    forall k :: k in rows ==> ActiveRow(h, bucket, rows[k]).Some?
  }

  function ActiveKeys(h: Headers, bucket: string, rows: Bucket): set<string>
  {
    set k | k in rows && ActiveRow(h, bucket, rows[k]) == Some(true)
  }

  /** The index of one bucket holds exactly the keys of its active rows. */
  ghost predicate Agrees(h: Headers, buckets: Buckets, bucket: string)
  {
    && ActiveIndex(bucket) != "" && bucket in buckets && ActiveIndex(bucket) in buckets
    && Readable(h, bucket, buckets[bucket])
    && buckets[ActiveIndex(bucket)].Keys == ActiveKeys(h, bucket, buckets[bucket])
  }

  ghost predicate Indexed(h: Headers, buckets: Buckets)
  {
    Agrees(h, buckets, "intents") && Agrees(h, buckets, "work")
  }

  function VersionOf(buckets: Buckets): Option<string>
  {
    if "meta" in buckets && VERSION_KEY in buckets["meta"] then Some(buckets["meta"][VERSION_KEY]) else None
  }

  /** What opening the store creates. */
  predicate Opened(buckets: Buckets) { "meta" in buckets && "intents" in buckets && "work" in buckets }

  /** A known version, with both indexes already there or all rows readable. */
  ghost predicate Migratable(h: Headers, buckets: Buckets)
    requires Opened(buckets)
  {
    && VersionOf(buckets) in {None, Some(VERSION)}
    && ((VersionOf(buckets).Some? && "active_intents" in buckets && "active_work" in buckets)
        || (Readable(h, "intents", buckets["intents"]) && Readable(h, "work", buckets["work"])))
  }

  // ---- which rows are active

  /** The status of a stored intent. */
  predicate HasStatus(h: Headers, row: string, statuses: set<string>)
  {
    h.intentStatus(row).Some? && h.intentStatus(row).value in statuses
  }

  /** Intents that are queued, pending or failed are active; confirmed, satisfied and cancelled ones are not; no other status is readable. */
  lemma ActiveIntents(h: Headers, rows: Bucket)
    ensures ActiveKeys(h, "intents", rows) == set k | k in rows && HasStatus(h, rows[k], {"queued", "pending", "failed"})
    ensures Readable(h, "intents", rows) <==>
      forall k :: k in rows ==> HasStatus(h, rows[k], {"queued", "pending", "failed", "confirmed", "satisfied", "cancelled"})
  {
  }

  /** Work is active until it is done, and again when it is done with an expired case. */
  lemma ActiveWork(h: Headers, rows: Bucket)
    ensures forall k :: k in ActiveKeys(h, "work", rows) <==>
      k in rows && h.workDone(rows[k]).Some? && (h.workDone(rows[k]).value.0 ==> h.workDone(rows[k]).value.1 == "CASE_STATUS_EXPIRED")
    ensures Readable(h, "work", rows) <==> forall k :: k in rows ==> h.workDone(rows[k]).Some?
  {
  }

  // ---- listing

  /** The rows of the given keys, in their order. */
  function RowsAt(rows: Bucket, keys: seq<string>): seq<string>
    requires forall k :: k in keys ==> k in rows
  {
    seq(|keys|, i requires 0 <= i < |keys| => rows[keys[i]])
  }

  /** The plain scan: all keys in order, completed rows dropped. */
  function ActiveOnly(h: Headers, bucket: string, rows: Bucket, keys: seq<string>): (r: seq<string>)
    requires forall k :: k in keys ==> k in rows
    ensures forall k :: k in r ==> k in keys
  {
    if keys == [] then []
    else
      var rest := ActiveOnly(h, bucket, rows, keys[..|keys| - 1]);
      var k := keys[|keys| - 1];
      if ActiveRow(h, bucket, rows[k]) == Some(true) then rest + [k] else rest
  }

  lemma {:induction false} ActiveOnlyExact(h: Headers, bucket: string, rows: Bucket, keys: seq<string>)
    requires Ascending(keys) && forall k :: k in keys ==> k in rows
    ensures var r := ActiveOnly(h, bucket, rows, keys);
      Ascending(r) && forall k :: k in r <==> k in keys && ActiveRow(h, bucket, rows[k]) == Some(true)
  {
    if keys != [] {
      var init, last := keys[..|keys| - 1], keys[|keys| - 1];
      ActiveOnlyExact(h, bucket, rows, init);
      assert keys == init + [last];
      var r := ActiveOnly(h, bucket, rows, init);
      forall i | 0 <= i < |r| ensures Less(r[i], last) {
        assert r[i] in r;
        var j :| 0 <= j < |init| && init[j] == r[i];
        assert keys[j] == r[i];
      }
    }
  }

  /** Walking an agreeing index visits exactly the rows that the filtered scan of the whole bucket keeps, in its order. */
  lemma IndexIsFilteredScan(h: Headers, buckets: Buckets, bucket: string)
    requires Agrees(h, buckets, bucket)
    ensures var rows := buckets[bucket];
      Sorted(buckets[ActiveIndex(bucket)].Keys) == ActiveOnly(h, bucket, rows, Sorted(rows.Keys))
  {
    var rows := buckets[bucket];
    ActiveOnlyExact(h, bucket, rows, Sorted(rows.Keys));
    AscendingUnique(Sorted(buckets[ActiveIndex(bucket)].Keys), ActiveOnly(h, bucket, rows, Sorted(rows.Keys)));
  }

  ghost predicate RowsOf(rows: Bucket, keys: seq<string>, out: seq<string>)
  {
    |out| == |keys| && forall i :: 0 <= i < |keys| ==> keys[i] in rows && out[i] == rows[keys[i]]
  }

  lemma RowsMore(rows: Bucket, keys: seq<string>, out: seq<string>, key: string)
    requires RowsOf(rows, keys, out) && key in rows
    ensures RowsOf(rows, keys + [key], out + [rows[key]])
  {
  }

  lemma ActiveKey(h: Headers, bucket: string, rows: Bucket, key: string)
    ensures key in ActiveKeys(h, bucket, rows) <==> key in rows && ActiveRow(h, bucket, rows[key]) == Some(true)
  {
    hide ActiveRow;
  }

  /** The walk along the index, stopping at the first entry that is not an active row. */
  method RowsBehind(h: Headers, bucket: string, primary: Bucket, index: Bucket) returns (rows: Option<seq<string>>)
    ensures rows.Some? <==> index.Keys <= ActiveKeys(h, bucket, primary)
    ensures rows.Some? ==> rows == Some(RowsAt(primary, Sorted(index.Keys)))
  {
    hide ActiveRow, Sorted, IsLeast, RowsAt, RowsOf, ActiveKeys;
    var out: seq<string> := [];
    ghost var keys: seq<string> := [];
    var rest := index.Keys;
    assert RowsOf(primary, keys, out) by { EmptyTail(primary, keys); }
    while rest != {}
      invariant rest <= index.Keys
      invariant keys + Sorted(rest) == Sorted(index.Keys)
      invariant index.Keys - rest <= ActiveKeys(h, bucket, primary)
      invariant RowsOf(primary, keys, out)
      decreases |rest|
    {
      var key := LeastKey(rest);
      ActiveKey(h, bucket, primary, key);
      if key !in primary || ActiveRow(h, bucket, primary[key]) != Some(true) { return None; }
      SortedAppend(rest, keys, key);
      RowsMore(primary, keys, out, key);
      out := out + [primary[key]];
      keys := keys + [key];
      rest := rest - {key};
    }
    EmptyTail(primary, keys);
    SameRows(primary, keys, out);
    return Some(out);
  }

  // ---- the journal

  class Store {
    const headers: Headers
    var buckets: Buckets

    constructor (headers: Headers)
      ensures this.headers == headers && this.buckets == map["meta" := map[], "work" := map[], "intents" := map[]]
    {
      this.headers := headers;
      this.buckets := map["meta" := map[], "work" := map[], "intents" := map[]];
    }

    /** Rebuilds one index from its bucket; None when a row cannot be classified. */
    method RebuildIndex(bucket: string) returns (index: Option<Bucket>)
      requires bucket in buckets
      ensures index.Some? <==> Readable(headers, bucket, buckets[bucket])
      ensures index.Some? ==> index.value.Keys == ActiveKeys(headers, bucket, buckets[bucket])
    {
      var rows := buckets[bucket];
      var keys: Bucket := map[];
      var rest := rows.Keys;
      while rest != {}
        invariant rest <= rows.Keys
        invariant forall k :: k in rows && k !in rest ==> ActiveRow(headers, bucket, rows[k]).Some?
        invariant forall k :: k in keys <==> k in rows && k !in rest && ActiveRow(headers, bucket, rows[k]) == Some(true)
        decreases |rest|
      {
        var key := LeastKey(rest);
        var active := ActiveRow(headers, bucket, rows[key]);
        if active.None? { return None; }
        if active.value { keys := keys[key := PRESENT]; }
        rest := rest - {key};
      }
      return Some(keys);
    }

    /** migrateIndexes in one database transaction: an error leaves everything as it was. */
    method MigrateIndexes() returns (ok: bool)
      requires Opened(buckets)
      modifies this
      ensures !ok ==> buckets == old(buckets)
      ensures ok <==> Migratable(headers, old(buckets))
      ensures ok ==> VersionOf(buckets) == Some(VERSION)
      ensures ok ==> (buckets == old(buckets) && "active_intents" in buckets && "active_work" in buckets) || Indexed(headers, buckets)
      ensures ok ==> Opened(buckets) && buckets["intents"] == old(buckets)["intents"] && buckets["work"] == old(buckets)["work"]
    {
      hide ActiveRow, ActiveKeys, Readable;
      var version := VersionOf(buckets);
      if version.Some? && version.value != VERSION { return false; }
      if version.Some? && ActiveIndex("intents") in buckets && ActiveIndex("work") in buckets { return true; }
      var intents := RebuildIndex("intents");
      if intents.None? { return false; }
      var work := RebuildIndex("work");
      if work.None? { return false; }
      buckets := buckets["active_intents" := intents.value];
      buckets := buckets["active_work" := work.value];
      buckets := buckets["meta" := buckets["meta"][VERSION_KEY := VERSION]];
      return true;
    }

    /** Put in one database transaction; the database refuses an empty key. */
    method Put(bucket: string, key: string, row: string) returns (ok: bool)
      requires Opened(buckets)
      modifies this
      ensures !ok ==> buckets == old(buckets)
      ensures ok ==> bucket in old(buckets) && bucket in buckets && Opened(buckets)
      ensures ok ==> buckets[bucket] == old(buckets)[bucket][key := row]
      ensures ok ==> forall b :: b != bucket && b != ActiveIndex(bucket) ==>
        (b in buckets <==> b in old(buckets)) && (b in buckets ==> buckets[b] == old(buckets)[b])
      ensures ok && Indexed(headers, old(buckets)) && bucket !in {"active_intents", "active_work"} ==> Indexed(headers, buckets)
      ensures Indexed(headers, old(buckets)) && ActiveIndex(bucket) != "" ==>
        (ok <==> ActiveRow(headers, bucket, row).Some? && key != "")
      ensures ok ==> key != ""
    {
      hide ActiveRow;
      var index := ActiveIndex(bucket);
      var active := Some(false);
      if index != "" {
        active := ActiveRow(headers, bucket, row);
        if active.None? { return false; }
      }
      if bucket !in buckets { return false; }
      if key == "" { return false; }
      if index != "" && index !in buckets { return false; }
      ghost var before := buckets;
      buckets := buckets[bucket := buckets[bucket][key := row]];
      if index == "" { return true; }
      if active.value {
        buckets := buckets[index := buckets[index][key := PRESENT]];
      } else {
        buckets := buckets[index := buckets[index] - {key}];
      }
      if Indexed(headers, before) {
        PutAgrees(headers, before, bucket, key, row);
      }
      return true;
    }

    /** ListActive: the rows behind the index, in key order; None for an entry that is missing, unreadable or completed. */
    method ListActive(bucket: string) returns (rows: Option<seq<string>>)
      ensures Agrees(headers, buckets, bucket) ==>
        rows == Some(RowsAt(buckets[bucket], ActiveOnly(headers, bucket, buckets[bucket], Sorted(buckets[bucket].Keys))))
      ensures rows.Some? ==>
        && bucket in buckets && ActiveIndex(bucket) in buckets
        && buckets[ActiveIndex(bucket)].Keys <= ActiveKeys(headers, bucket, buckets[bucket])
        && rows == Some(RowsAt(buckets[bucket], Sorted(buckets[ActiveIndex(bucket)].Keys)))
    {
      hide ActiveRow, Sorted, ActiveKeys;
      var name := ActiveIndex(bucket);
      if name == "" { return None; }
      if bucket !in buckets || name !in buckets { return None; }
      rows := RowsBehind(headers, bucket, buckets[bucket], buckets[name]);
      if Agrees(headers, buckets, bucket) { IndexIsFilteredScan(headers, buckets, bucket); }
    }

    /** One bucket of validateIndexes: membership row by row, then the number of entries. */
    method ValidateBucket(bucket: string) returns (ok: bool)
      requires bucket in buckets && ActiveIndex(bucket) != ""
      ensures ok <==> Agrees(headers, buckets, bucket)
    {
      hide ActiveRow;
      var name := ActiveIndex(bucket);
      if name !in buckets { return false; }
      var primary, index := buckets[bucket], buckets[name];
      var expected := 0;
      ghost var met: set<string> := {};
      var rest := primary.Keys;
      while rest != {}
        invariant rest <= primary.Keys
        invariant forall k :: k in primary && k !in rest ==>
            ActiveRow(headers, bucket, primary[k]).Some? && (k in index <==> ActiveRow(headers, bucket, primary[k]) == Some(true))
        invariant met == (set k | k in primary && k !in rest && ActiveRow(headers, bucket, primary[k]) == Some(true))
        invariant expected == |met|
        decreases |rest|
      {
        var key := LeastKey(rest);
        var active := ActiveRow(headers, bucket, primary[key]);
        if active.None? { return false; }
        if active.value {
          expected := expected + 1;
          met := met + {key};
        }
        if (key in index) != active.value {
          assert key in index.Keys <==> key in index;
          return false;
        }
        rest := rest - {key};
      }
      assert met == ActiveKeys(headers, bucket, primary);
      assert met <= index.Keys;
      if |index| != expected {
        return false;
      }
      SameSize(met, index.Keys);
      return true;
    }

    /** validateIndexes: a journal without a version is left to migration. */
    method ValidateIndexes() returns (ok: bool)
      requires Opened(buckets)
      ensures ok <==> VersionOf(buckets).None? || (VersionOf(buckets) == Some(VERSION) && Indexed(headers, buckets))
    {
      hide Agrees;
      var version := VersionOf(buckets);
      if version.None? { return true; }
      if version.value != VERSION { return false; }
      ok := ValidateBucket("intents");
      if !ok { return; }
      ok := ValidateBucket("work");
    }
  }

  lemma SameRows(rows: Bucket, keys: seq<string>, out: seq<string>)
    requires RowsOf(rows, keys, out)
    ensures (forall k :: k in keys ==> k in rows) && out == RowsAt(rows, keys)
  {
  }

  lemma EmptyTail(rows: Bucket, keys: seq<string>)
    ensures keys + Sorted({}) == keys && RowsOf(rows, [], [])
  {
  }

  /** Writing a row and its index entry together keeps all indexes in agreement. */
  lemma PutAgrees(h: Headers, buckets: Buckets, bucket: string, key: string, row: string)
    requires Indexed(h, buckets) && ActiveIndex(bucket) != "" && ActiveRow(h, bucket, row).Some?
    ensures bucket in buckets && ActiveIndex(bucket) in buckets
    ensures var index := buckets[ActiveIndex(bucket)];
      Indexed(h, buckets[bucket := buckets[bucket][key := row]]
                 [ActiveIndex(bucket) := if ActiveRow(h, bucket, row).value then index[key := PRESENT] else index - {key}])
  {
    hide ActiveRow;
    var index := buckets[ActiveIndex(bucket)];
    var rows := buckets[bucket][key := row];
    var entry := if ActiveRow(h, bucket, row).value then index[key := PRESENT] else index - {key};
    assert entry.Keys == ActiveKeys(h, bucket, rows);
    assert Readable(h, bucket, rows);
  }
}
