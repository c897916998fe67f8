/** The record store: `DatabaseHandler` over a TinyDB table of per-file
    records, keyed in practice by `relative_path`. */
module Database {
  import opened Wrappers
  import opened Values
  import opened Text

  /** A stored record: a JSON object's fields. */
  type Document = map<string, Json>

  /** `Query().relative_path == p` on a record: the field is present and equal. */
  predicate HasPath(d: Document, p: Json)
  {
    "relative_path" in d && d["relative_path"] == p
  }

  /** Whether some record matches `p`. */
  predicate AnyHasPath(docs: seq<Document>, p: Json)
  {
    exists i :: 0 <= i < |docs| && HasPath(docs[i], p)
  }

  /** TinyDB's `upsert(m, Query().relative_path == p)`: every matching
      record is updated with the fields of `m` (`dict.update`, so `m`'s
      values win); with no match, `m` is appended. */
  function Upsert(docs: seq<Document>, m: Document): (r: seq<Document>)
    requires "relative_path" in m
    ensures AnyHasPath(docs, m["relative_path"]) ==> |r| == |docs|
    ensures !AnyHasPath(docs, m["relative_path"]) ==> r == docs + [m]
    ensures forall i :: 0 <= i < |docs| ==>
      r[i] == if HasPath(docs[i], m["relative_path"]) then docs[i] + m else docs[i]
  {
    var p := m["relative_path"];
    if AnyHasPath(docs, p) then
      seq(|docs|, i requires 0 <= i < |docs| => if HasPath(docs[i], p) then docs[i] + m else docs[i])
    else
      docs + [m]
  }

  /** After an upsert some record carries `m`'s path and all of `m`'s fields. */
  lemma UpsertStores(docs: seq<Document>, m: Document)
    requires "relative_path" in m
    ensures exists d ::
      && d in Upsert(docs, m)
      && HasPath(d, m["relative_path"])
      && forall k :: k in m ==> k in d && d[k] == m[k]
  {
    var r := Upsert(docs, m);
    if AnyHasPath(docs, m["relative_path"]) {
      var i :| 0 <= i < |docs| && HasPath(docs[i], m["relative_path"]);
      assert r[i] == docs[i] + m;
      assert r[i] in r;
    } else {
      assert r[|docs|] == m;
      assert r[|docs|] in r;
    }
  }

  /** Records under other paths keep their place and content, and nothing
      else is added. */
  lemma UpsertPreservesOthers(docs: seq<Document>, m: Document)
    requires "relative_path" in m
    ensures |docs| <= |Upsert(docs, m)| <= |docs| + 1
    ensures forall i :: 0 <= i < |docs| && !HasPath(docs[i], m["relative_path"]) ==> Upsert(docs, m)[i] == docs[i]
    ensures forall i :: |docs| <= i < |Upsert(docs, m)| ==> Upsert(docs, m)[i] == m
  {
  }

  /** Storing the same record twice is storing it once. */
  lemma UpsertIdempotent(docs: seq<Document>, m: Document)
    requires "relative_path" in m
    ensures Upsert(Upsert(docs, m), m) == Upsert(docs, m)
  {
    var p := m["relative_path"];
    var r := Upsert(docs, m);
    assert HasPath(r[|r| - 1], p) || AnyHasPath(docs, p) by {
      if !AnyHasPath(docs, p) {
        assert r[|r| - 1] == m;
      }
    }
    assert AnyHasPath(r, p);
    var r2 := Upsert(r, m);
    assert |r2| == |r|;
    forall i | 0 <= i < |r|
      ensures r2[i] == r[i]
    {
      if HasPath(r[i], p) {
        assert r[i] + m + m == r[i] + m;
      }
    }
  }

  /** No two records share a path. */
  predicate UniquePaths(docs: seq<Document>)
  {
    forall i, j :: 0 <= i < j < |docs| && "relative_path" in docs[i] && "relative_path" in docs[j] ==>
      docs[i]["relative_path"] != docs[j]["relative_path"]
  }

  /** Upserts keep paths unique. */
  lemma UpsertKeepsPathsUnique(docs: seq<Document>, m: Document)
    requires "relative_path" in m && UniquePaths(docs)
    ensures UniquePaths(Upsert(docs, m))
  {
    var p := m["relative_path"];
    var r := Upsert(docs, m);
    forall i, j | 0 <= i < j < |r| && "relative_path" in r[i] && "relative_path" in r[j]
      ensures r[i]["relative_path"] != r[j]["relative_path"]
    {
      if j == |docs| {
        assert !AnyHasPath(docs, p);
        assert !HasPath(docs[i], p);
      }
    }
  }

  /** TinyDB's `search(Query().relative_path == p)`: the matching
      records, in table order. */
  function Search(docs: seq<Document>, p: Json): (r: seq<Document>)
    ensures forall d :: d in r <==> d in docs && HasPath(d, p)
    ensures r == [] <==> !AnyHasPath(docs, p)
  {
    if docs == [] then []
    else
      var rest := Search(docs[1..], p);
      assert forall d :: d in docs <==> d == docs[0] || d in docs[1..];
      assert AnyHasPath(docs[1..], p) ==> AnyHasPath(docs, p);
      if HasPath(docs[0], p) then [docs[0]] + rest else rest
  }

  /** `file_needs_update`: no record's `relative_path` is the file's
      basename. The modification time is not consulted. */
  function NeedsUpdate(docs: seq<Document>, filePath: string): (b: bool)
    ensures b <==> forall d :: d in docs ==> !HasPath(d, JStr(Basename(filePath)))
  {
    !AnyHasPath(docs, JStr(Basename(filePath)))
  }

  /** A file whose basename was just stored is up to date. */
  lemma UpToDateAfterUpsert(docs: seq<Document>, m: Document, filePath: string)
    requires "relative_path" in m && m["relative_path"] == JStr(Basename(filePath))
    ensures !NeedsUpdate(Upsert(docs, m), filePath)
  {
    UpsertStores(docs, m);
  }

  /** A record stored under a path with a directory part never makes any
      file up to date: the lookup compares a basename, which has no `/`. */
  lemma SubdirectoryRecordNeverMatches(docs: seq<Document>, d: Document, filePath: string)
    requires "relative_path" in d && d["relative_path"].JStr? && '/' in d["relative_path"].s
    ensures NeedsUpdate(docs + [d], filePath) == NeedsUpdate(docs, filePath)
  {
    assert !HasPath(d, JStr(Basename(filePath)));
    assert forall x :: x in docs + [d] <==> x in docs || x == d;
  }

  /** The handler over the table's records, in insertion order. */
  class DatabaseHandler {
    var documents: seq<Document>

    /** Opening a table with the records it already holds. */
    constructor (documents: seq<Document>)
      ensures this.documents == documents
    {
      this.documents := documents;
    }

    /** `insert_or_update`: the upsert keyed by the record's own
        `relative_path`; a record without one raises KeyError. */
    method InsertOrUpdate(metadata: Document) returns (err: Option<Exception>)
      modifies this
      ensures "relative_path" !in metadata ==> err == Some(KeyError("relative_path")) && documents == old(documents)
      ensures "relative_path" in metadata ==> err.None? && documents == Upsert(old(documents), metadata)
    {
      if "relative_path" !in metadata {
        return Some(KeyError("relative_path"));
      }
      documents := Upsert(documents, metadata);
      err := None;
    }

    /** `file_needs_update`: searches the records for the basename and
        answers whether the search came back empty. */
    method FileNeedsUpdate(filePath: string, fileMtime: int) returns (b: bool)
      ensures b == NeedsUpdate(documents, filePath)
    {
      var result := Search(documents, JStr(Basename(filePath)));
      b := result == [];
    }
  }
}
