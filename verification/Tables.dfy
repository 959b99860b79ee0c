/** Key-unique sorted record lists: the sorted list of a level and the block table of a segment. */
module Tables {
  import opened Types

  /** Position of the first record whose key is not below `key`. */
  function Rank(rs: seq<Record>, key: nat): (p: nat)
    ensures p <= |rs|
    ensures forall i :: 0 <= i < p ==> rs[i].key < key
    ensures p < |rs| ==> rs[p].key >= key
  {
    if rs == [] || rs[0].key >= key then 0 else 1 + Rank(rs[1..], key)
  }

  /** Put `r` in its place; of two records with one key the later timestamp stays. */
  function Upsert(rs: seq<Record>, r: Record): seq<Record> {
    var p := Rank(rs, r.key);
    if p < |rs| && rs[p].key == r.key then
      if r.ts > rs[p].ts then rs[p := r] else rs
    else
      rs[..p] + [r] + rs[p..]
  }

  function UpsertAll(rs: seq<Record>, added: seq<Record>): seq<Record> {
    if added == [] then rs
    else Upsert(UpsertAll(rs, added[..|added| - 1]), added[|added| - 1])
  }

  lemma RankUnique(rs: seq<Record>, key: nat, p: nat)
    requires p <= |rs|
    requires forall i :: 0 <= i < p ==> rs[i].key < key
    requires p < |rs| ==> rs[p].key >= key
    ensures p == Rank(rs, key)
  {
  }

  /** Some record of `rs` is a version of `key` at least as new as `ts`. */
  ghost predicate HasAtLeast(rs: seq<Record>, key: nat, ts: nat) {
    exists i :: 0 <= i < |rs| && rs[i].key == key && rs[i].ts >= ts
  }

  /** One insertion keeps the order and invents nothing. */
  lemma UpsertFacts(rs: seq<Record>, r: Record)
    requires Ascending(rs)
    ensures Ascending(Upsert(rs, r))
    ensures forall x :: x in Upsert(rs, r) ==> x == r || x in rs
    ensures |rs| <= |Upsert(rs, r)| <= |rs| + 1
  {
  }

  /** One insertion keeps, for every key, a record at least as new as each the list or `r` had. */
  lemma UpsertKeeps(rs: seq<Record>, r: Record, x: Record)
    requires Ascending(rs)
    requires x == r || x in rs
    ensures HasAtLeast(Upsert(rs, r), x.key, x.ts)
  {
    var p := Rank(rs, r.key);
    var u := Upsert(rs, r);
    if x == r {
      assert u[p].key == r.key && u[p].ts >= r.ts;
    } else {
      var i :| 0 <= i < |rs| && rs[i] == x;
      if p < |rs| && rs[p].key == r.key {
        assert u[i].key == x.key && u[i].ts >= x.ts;
      } else {
        assert u[if i < p then i else i + 1] == x;
      }
    }
  }

  /** What a sequence of insertions leaves: strictly ascending keys and only records it was given.
      With UpsertAllKeeps and key uniqueness: for each key the newest record it was given. */
  lemma {:induction false} UpsertAllFacts(rs: seq<Record>, added: seq<Record>)
    requires Ascending(rs)
    ensures Ascending(UpsertAll(rs, added))
    ensures forall x :: x in UpsertAll(rs, added) ==> x in rs || x in added
    ensures |rs| <= |UpsertAll(rs, added)| <= |rs| + |added|
  {
    if added != [] {
      var n := |added| - 1;
      UpsertAllFacts(rs, added[..n]);
      UpsertFacts(UpsertAll(rs, added[..n]), added[n]);
    }
  }

  lemma {:induction false} UpsertAllKeeps(rs: seq<Record>, added: seq<Record>, x: Record)
    requires Ascending(rs)
    requires x in rs || x in added
    ensures HasAtLeast(UpsertAll(rs, added), x.key, x.ts)
  {
    if added != [] {
      var n := |added| - 1;
      var u := UpsertAll(rs, added[..n]);
      UpsertAllFacts(rs, added[..n]);
      if x == added[n] {
        UpsertKeeps(u, added[n], x);
      } else {
        assert x in rs || x in added[..n];
        UpsertAllKeeps(rs, added[..n], x);
        var i :| 0 <= i < |u| && u[i].key == x.key && u[i].ts >= x.ts;
        UpsertKeeps(u, added[n], u[i]);
      }
    }
  }

  /** The record kept for a key is the newest of all that were given for it. */
  lemma UpsertAllMaximal(rs: seq<Record>, added: seq<Record>, kept: Record, x: Record)
    requires Ascending(rs)
    requires kept in UpsertAll(rs, added) && (x in rs || x in added) && x.key == kept.key
    ensures x.ts <= kept.ts
  {
    UpsertAllFacts(rs, added);
    UpsertAllKeeps(rs, added, x);
  }

  /** Insertion of ascending distinct keys appends. */
  lemma {:induction false} UpsertAllAscending(rs: seq<Record>)
    requires Ascending(rs)
    ensures UpsertAll([], rs) == rs
  {
    if rs != [] {
      var n := |rs| - 1;
      UpsertAllAscending(rs[..n]);
      RankUnique(rs[..n], rs[n].key, n);
      assert rs == rs[..n] + [rs[n]];
    }
  }

  /** Insertion into the sorted list of a level: find the key, else link before the first larger one. */
  method SortedUpsert(rs: seq<Record>, r: Record) returns (out: seq<Record>)
    requires Ascending(rs)
    ensures out == Upsert(rs, r)
  {
    var i := 0;
    while i < |rs|
      invariant i <= |rs|
      invariant forall j :: 0 <= j < i ==> rs[j].key < r.key
    {
      if rs[i].key == r.key {
        RankUnique(rs, r.key, i);
        if r.ts > rs[i].ts {
          return rs[i := r];
        }
        return rs;
      }
      if rs[i].key > r.key {
        break;
      }
      i := i + 1;
    }
    var p := 0;
    while p < |rs| && rs[p].key < r.key
      invariant p <= |rs|
      invariant forall j :: 0 <= j < p ==> rs[j].key < r.key
    {
      p := p + 1;
    }
    RankUnique(rs, r.key, p);
    assert p == i;
    return rs[..p] + [r] + rs[p..];
  }

  /** Binary search of a segment's block table. */
  method TableFind(table: seq<Entry>, key: nat) returns (found: bool, at: nat)
    requires Ascending(Recs(table))
    ensures found ==> at < |table| && table[at].rec.key == key
    ensures found <==> exists i :: 0 <= i < |table| && table[i].rec.key == key
  {
    var rs := Recs(table);
    var left, right := 0, |table|;
    while left < right
      invariant left <= right <= |table|
      invariant forall i :: 0 <= i < left ==> rs[i].key < key
      invariant forall i :: right <= i < |table| ==> rs[i].key > key
    {
      var mid := left + (right - left) / 2;
      if rs[mid].key == key {
        return true, mid;
      }
      if rs[mid].key < key {
        left := mid + 1;
      } else {
        right := mid;
      }
    }
    assert forall i :: 0 <= i < |table| ==> table[i].rec == rs[i];
    return false, 0;
  }
}
