/**
 * The display half of `view_batch_chain` in blockchain/views.py: run the
 * genealogy traversal, keep one block per `block_hash`, sort by `timestamp`
 * and number the blocks 1..n in `visual_index`.
 */
module Explorer {
  import opened Strings
  import opened JsonValue
  import opened Ledger
  import opened Genealogy

  /** The block hashes occurring in `s`. */
  function Hashes(s: seq<Block>): set<string> {
    set b | b in s :: b.blockHash
  }

  /** At most one block per hash. */
  ghost predicate DistinctHashes(s: seq<Block>) {
    forall i, j :: 0 <= i < j < |s| ==> s[i].blockHash != s[j].blockHash
  }

  /** The distinct hashes of `s` in order of first occurrence: the key order of the dict. */
  function FirstHashes(s: seq<Block>): (keys: seq<string>)
    ensures forall i, j :: 0 <= i < j < |keys| ==> keys[i] != keys[j]
    ensures forall h :: h in keys <==> h in Hashes(s)
  {
    if s == [] then []
    else
      var prev := FirstHashes(s[..|s| - 1]);
      assert s == s[..|s| - 1] + [s[|s| - 1]];
      if s[|s| - 1].blockHash in prev then prev else prev + [s[|s| - 1].blockHash]
  }

  /** The position of the last block with hash `h`: the value the dict keeps for `h`. */
  function LastIndexWithHash(s: seq<Block>, h: string): (i: nat)
    requires h in Hashes(s)
    ensures i < |s| && s[i].blockHash == h
    ensures forall k :: i < k < |s| ==> s[k].blockHash != h
  {
    if s[|s| - 1].blockHash == h then |s| - 1
    else
      assert s == s[..|s| - 1] + [s[|s| - 1]];
      LastIndexWithHash(s[..|s| - 1], h)
  }

  /**
   * `{b['block_hash']: b for b in raw_chain}.values()`: one block per hash,
   * in order of the hash's first occurrence, each the last block with that hash.
   */
  function UniqueByHash(raw: seq<Block>): (r: seq<Block>)
    ensures DistinctHashes(r)
    ensures Hashes(r) == Hashes(raw)
    ensures forall b :: b in r ==> b in raw
    ensures |r| <= |raw|
    ensures forall k :: 0 <= k < |r| ==> r[k] == raw[LastIndexWithHash(raw, r[k].blockHash)]
  {
    var keys := FirstHashes(raw);
    LastOfEachFacts(raw, keys);
    LastOfEach(raw, keys)
  }

  /** For each hash of `keys`, in that order, the last block of `raw` that has it. */
  function LastOfEach(raw: seq<Block>, keys: seq<string>): (r: seq<Block>)
    requires forall h :: h in keys ==> h in Hashes(raw)
    ensures |r| == |keys|
    ensures forall k :: 0 <= k < |r| ==> r[k] == raw[LastIndexWithHash(raw, keys[k])]
  {
    assert forall k :: 0 <= k < |keys| ==> keys[k] in keys;
    seq(|keys|, k requires 0 <= k < |keys| => raw[LastIndexWithHash(raw, keys[k])])
  }

  lemma LastOfEachFacts(raw: seq<Block>, keys: seq<string>)
    requires forall i, j :: 0 <= i < j < |keys| ==> keys[i] != keys[j]
    requires forall h :: h in keys <==> h in Hashes(raw)
    ensures DistinctHashes(LastOfEach(raw, keys))
    ensures Hashes(LastOfEach(raw, keys)) == Hashes(raw)
    ensures forall b :: b in LastOfEach(raw, keys) ==> b in raw
    ensures |LastOfEach(raw, keys)| <= |raw|
  {
    var r := LastOfEach(raw, keys);
    assert forall k :: 0 <= k < |r| ==> r[k].blockHash == keys[k];
    forall h | h in Hashes(raw) ensures h in Hashes(r) {
      assert h in keys;
      var k :| 0 <= k < |keys| && keys[k] == h;
      assert r[k] in r;
    }
    DistinctCount(keys, raw);
  }

  /** A sequence of distinct hashes, all from `raw`, is no longer than `raw`. */
  lemma DistinctCount(keys: seq<string>, raw: seq<Block>)
    requires forall i, j :: 0 <= i < j < |keys| ==> keys[i] != keys[j]
    requires forall h :: h in keys ==> h in Hashes(raw)
    ensures |keys| <= |raw|
  {
    var ks := set h | h in keys;
    assert |ks| == |keys| by { DistinctCardinality(keys); }
    var hs := Hashes(raw);
    assert ks <= hs;
    SubsetCardinality(ks, hs);
    ImageCardinality(raw);
  }

  lemma {:induction false} DistinctCardinality(keys: seq<string>)
    requires forall i, j :: 0 <= i < j < |keys| ==> keys[i] != keys[j]
    ensures |set h | h in keys| == |keys|
  {
    if keys != [] {
      var rest := keys[1..];
      DistinctCardinality(rest);
      assert (set h | h in keys) == {keys[0]} + (set h | h in rest);
    }
  }

  lemma {:induction false} ImageCardinality(raw: seq<Block>)
    ensures |Hashes(raw)| <= |raw|
  {
    if raw != [] {
      ImageCardinality(raw[1..]);
      assert Hashes(raw) == {raw[0].blockHash} + Hashes(raw[1..]);
    }
  }

  /** Non-decreasing `timestamp`, compared as Python compares the isoformat strings. */
  ghost predicate SortedByTime(s: seq<Block>) {
    forall i, j :: 0 <= i < j < |s| ==> LexLe(s[i].timestamp, s[j].timestamp)
  }

  /** Insert `b` before the first block that is not earlier than it. */
  function InsertByTime(b: Block, s: seq<Block>): (r: seq<Block>)
    requires SortedByTime(s)
    ensures SortedByTime(r)
    ensures multiset(r) == multiset(s) + multiset{b}
  {
    if s == [] then [b]
    else if LexLe(b.timestamp, s[0].timestamp) then
      LeBeforeSorted(b, s);
      [b] + s
    else
      LexLeTotal(b.timestamp, s[0].timestamp);
      var rest := InsertByTime(b, s[1..]);
      assert multiset(s) == multiset{s[0]} + multiset(s[1..]) by { assert s == [s[0]] + s[1..]; }
      HeadBeforeSorted(s[0], rest, s[1..], b);
      [s[0]] + rest
  }

  lemma LeBeforeSorted(b: Block, s: seq<Block>)
    requires SortedByTime(s) && s != [] && LexLe(b.timestamp, s[0].timestamp)
    ensures SortedByTime([b] + s)
  {
    forall j | 0 < j < |s| ensures LexLe(b.timestamp, s[j].timestamp) {
      LexLeTransitive(b.timestamp, s[0].timestamp, s[j].timestamp);
    }
  }

  lemma HeadBeforeSorted(head: Block, rest: seq<Block>, tail: seq<Block>, b: Block)
    requires SortedByTime(rest) && SortedByTime([head] + tail)
    requires LexLe(head.timestamp, b.timestamp)
    requires multiset(rest) == multiset(tail) + multiset{b}
    ensures SortedByTime([head] + rest)
  {
    forall j | 0 <= j < |rest| ensures LexLe(head.timestamp, rest[j].timestamp) {
      assert rest[j] in multiset(rest);
      if rest[j] != b {
        assert rest[j] in multiset(tail);
        var k :| 0 <= k < |tail| && tail[k] == rest[j];
        var ht := [head] + tail;
        assert ht[0] == head && ht[k + 1] == rest[j];
        assert LexLe(ht[0].timestamp, ht[k + 1].timestamp);
      }
    }
  }

  /** `sorted(unique_chain, key=lambda x: x['timestamp'])`: an insertion sort, stable like Python's. */
  function SortByTime(s: seq<Block>): (r: seq<Block>)
    ensures SortedByTime(r)
    ensures multiset(r) == multiset(s)
  {
    if s == [] then []
    else
      assert s == [s[0]] + s[1..];
      InsertByTime(s[0], SortByTime(s[1..]))
  }

  /** The blocks after `block['visual_index'] = idx + 1`. */
  function Numbered(s: seq<Block>): seq<Block> {
    seq(|s|, i requires 0 <= i < |s| => s[i].(visualIndex := Some(i + 1)))
  }

  /** The loop `for idx, block in enumerate(final_chain): block['visual_index'] = idx + 1`. */
  method AssignVisualIndex(blocks: array<Block>)
    modifies blocks
    ensures blocks[..] == Numbered(old(blocks[..]))
  {
    for i := 0 to blocks.Length
      invariant forall k :: 0 <= k < i ==> blocks[k] == old(blocks[k]).(visualIndex := Some(k + 1))
      invariant forall k :: i <= k < blocks.Length ==> blocks[k] == old(blocks[k])
    {
      blocks[i] := blocks[i].(visualIndex := Some(i + 1));
    }
  }

  /** What the view renders: the explorer page with its chain, or an error page. */
  datatype Page = ExplorerPage(chain: seq<Block>, batchId: string) | ServerError

  /**
   * view_batch_chain(request, batch_id) over the ledger `fullChain`.
   * `lineage` is the set of batch ids the traversal visited and `collected`
   * those whose blocks it returned (`raw`). Every visited id is reachable
   * from `batchId`. On success `collected` holds `batchId`; every visited id
   * it leaves out was reached through the bridge of a visited "ORDER-" batch,
   * and when no visited batch raises, `collected` is exactly the set of ids
   * reachable from `batchId`. The page shows one block per hash of the
   * collected blocks, oldest first, numbered from 1. A server error needs a
   * raising batch reachable from `batchId` through the ledger alone.
   */
  method ViewBatchChain(fullChain: seq<Block>, env: Env, batchId: string)
    returns (page: Page, ghost lineage: set<string>, ghost collected: set<string>, ghost raw: seq<Block>)
    ensures batchId in lineage && AllReachable(fullChain, env, batchId, lineage)
    ensures page.ExplorerPage? ==> page.batchId == batchId
    ensures page.ExplorerPage? ==> batchId in collected && collected <= lineage
    ensures page.ExplorerPage? ==> Closed(fullChain, env, collected, lineage)
    ensures page.ExplorerPage? ==> Dropped(fullChain, env, lineage - collected, lineage)
    ensures page.ExplorerPage? && !Raises(fullChain, env, lineage) ==>
              collected == lineage && forall y :: Reachable(fullChain, env, batchId, y, true) ==> y in lineage
    ensures page.ExplorerPage? ==> multiset(raw) == multiset(BlocksOf(fullChain, collected))
    ensures page.ExplorerPage? ==> page.chain == Numbered(SortByTime(UniqueByHash(raw)))
    ensures page.ExplorerPage? ==> SortedByTime(page.chain) && DistinctHashes(page.chain)
    ensures page.ExplorerPage? ==> Hashes(page.chain) == Hashes(BlocksOf(fullChain, collected))
    ensures page.ExplorerPage? ==> forall i :: 0 <= i < |page.chain| ==> page.chain[i].visualIndex == Some(i + 1)
    ensures page.ExplorerPage? ==> forall i :: 0 <= i < |page.chain| ==> page.chain[i].batchId in collected
    ensures page.ServerError? ==> RaisesFrom(fullChain, env, batchId, lineage)
  {
    ghost var u := Universe(fullChain, env, batchId);
    UniverseBounds(fullChain, env, batchId);
    var rawChain, visited, ok, c := FetchGenealogy(fullChain, env, batchId, {}, u);
    lineage, collected, raw := visited, c, rawChain;
    assert visited - {} == visited;
    if !ok {
      return ServerError, lineage, collected, raw;
    }
    if !Raises(fullChain, env, lineage) {
      assert lineage - {} - collected == {};
      ReachClosed(fullChain, env, batchId, lineage);
    }
    var uniqueChain := UniqueByHash(rawChain);
    var finalChain := SortByTime(uniqueChain);
    var shown := NumberInPlace(finalChain);
    page := ExplorerPage(shown, batchId);
    ViewProperties(fullChain, collected, rawChain, page.chain);
  }

  /** The blocks of `finalChain` in a fresh array, numbered in place by AssignVisualIndex. */
  method NumberInPlace(finalChain: seq<Block>) returns (shown: seq<Block>)
    ensures shown == Numbered(finalChain)
  {
    var blocks := new Block[|finalChain|](i requires 0 <= i < |finalChain| => finalChain[i]);
    assert blocks[..] == finalChain;
    AssignVisualIndex(blocks);
    shown := blocks[..];
  }

  /** What numbering the sorted, de-duplicated traversal result guarantees. */
  lemma ViewProperties(fullChain: seq<Block>, ids: set<string>, raw: seq<Block>, shown: seq<Block>)
    requires multiset(raw) == multiset(BlocksOf(fullChain, ids))
    requires shown == Numbered(SortByTime(UniqueByHash(raw)))
    ensures SortedByTime(shown) && DistinctHashes(shown)
    ensures Hashes(shown) == Hashes(BlocksOf(fullChain, ids))
    ensures forall i :: 0 <= i < |shown| ==> shown[i].visualIndex == Some(i + 1)
    ensures forall i :: 0 <= i < |shown| ==> shown[i].batchId in ids
  {
    var unique := UniqueByHash(raw);
    var sorted := SortByTime(unique);
    SameElements(unique, sorted);
    SameElements(raw, BlocksOf(fullChain, ids));
    PermutationKeepsDistinctHashes(unique, sorted);
    NumberedKeeps(sorted);
    forall i | 0 <= i < |shown| ensures shown[i].batchId in ids {
      assert sorted[i] in sorted;
      BlocksOfMember(fullChain, ids, sorted[i]);
    }
  }

  /** Two sequences with the same multiset hold the same blocks and hashes. */
  lemma SameElements(a: seq<Block>, b: seq<Block>)
    requires multiset(a) == multiset(b)
    ensures forall x :: x in a <==> x in b
    ensures Hashes(a) == Hashes(b)
  {
    forall x ensures x in a <==> x in b {
      assert x in a <==> x in multiset(a);
      assert x in b <==> x in multiset(b);
    }
  }

  /** Numbering changes only `visualIndex`, so order, hashes and batch ids survive it. */
  lemma NumberedKeeps(s: seq<Block>)
    ensures |Numbered(s)| == |s|
    ensures forall i :: 0 <= i < |s| ==> Numbered(s)[i].visualIndex == Some(i + 1)
    ensures forall i :: 0 <= i < |s| ==> Numbered(s)[i].batchId == s[i].batchId
    ensures SortedByTime(s) ==> SortedByTime(Numbered(s))
    ensures DistinctHashes(s) ==> DistinctHashes(Numbered(s))
    ensures Hashes(Numbered(s)) == Hashes(s)
  {
    var n := Numbered(s);
    assert forall i :: 0 <= i < |s| ==> n[i].blockHash == s[i].blockHash && n[i].timestamp == s[i].timestamp;
    forall h | h in Hashes(s) ensures h in Hashes(n) {
      var x :| x in s && x.blockHash == h;
      var i :| 0 <= i < |s| && s[i] == x;
      assert n[i] in n;
    }
  }

  /** A permutation of a hash-distinct sequence is hash-distinct. */
  lemma PermutationKeepsDistinctHashes(a: seq<Block>, b: seq<Block>)
    requires DistinctHashes(a) && multiset(a) == multiset(b)
    ensures DistinctHashes(b)
  {
    forall i, j | 0 <= i < j < |b| ensures b[i].blockHash != b[j].blockHash {
      PermutationKeepsDistinct(a, b, i, j);
    }
  }

  /** Two positions of a permutation of a hash-distinct sequence hold different hashes. */
  lemma PermutationKeepsDistinct(a: seq<Block>, b: seq<Block>, i: nat, j: nat)
    requires DistinctHashes(a) && multiset(a) == multiset(b)
    requires i < j < |b|
    ensures b[i].blockHash != b[j].blockHash
  {
    assert b[i] in multiset(a) && b[j] in multiset(a);
    var p :| 0 <= p < |a| && a[p] == b[i];
    var q :| 0 <= q < |a| && a[q] == b[j];
    if p == q {
      // b[i] == b[j] would need two copies in b, hence two in a, at distinct positions
      assert b[i] == b[j];
      MultiplicityTwo(b, i, j);
      assert multiset(a)[a[p]] >= 2;
      var p2 := OtherPosition(a, p);
    }
  }

  lemma MultiplicityTwo(s: seq<Block>, i: nat, j: nat)
    requires i < j < |s| && s[i] == s[j]
    ensures multiset(s)[s[i]] >= 2
  {
    var x := s[i];
    assert s == s[..i] + [s[i]] + s[i + 1..j] + [s[j]] + s[j + 1..];
    assert multiset(s) == multiset(s[..i]) + multiset{x} + multiset(s[i + 1..j]) + multiset{x} + multiset(s[j + 1..]);
  }

  lemma OtherPosition(a: seq<Block>, p: nat) returns (q: nat)
    requires p < |a| && multiset(a)[a[p]] >= 2
    ensures q < |a| && q != p && a[q] == a[p]
  {
    var x := a[p];
    assert a == a[..p] + [x] + a[p + 1..];
    assert multiset(a) == multiset(a[..p]) + multiset{x} + multiset(a[p + 1..]);
    if x in a[..p] {
      q :| 0 <= q < p && a[..p][q] == x;
    } else {
      assert x in multiset(a[p + 1..]);
      var k :| 0 <= k < |a[p + 1..]| && a[p + 1..][k] == x;
      q := p + 1 + k;
    }
  }
}
