/**
 * The backward genealogy traversal of blockchain/views.py (`fetch_genealogy`
 * inside `view_batch_chain`): starting from a batch id, collect that batch's
 * blocks, follow the parent references found in their "data_content", fall
 * back to the order-to-harvest database lookup for "ORDER-" batches that
 * have none, and never explore a batch id twice.
 */
module Genealogy {
  import opened Strings
  import opened JsonValue
  import opened Ledger

  /**
   * Collaborators of the resolver that are not part of this model:
   * `orderHarvest(pk)` is the primary key of the harvest linked to the
   * marketplace order whose primary key is the string `pk` (None when there
   * is no such order, it has no harvest, or the query raises); `pyRepr(v)` is
   * Python's `str(v)` for a float, list or object value.
   */
  datatype Env = Env(orderHarvest: string -> Option<int>, pyRepr: Json -> string)

  const OrderPrefix: string := "ORDER-"
  const LotPrefix: string := "LOTE-"

  /** `[b for b in full_chain if b['batch_id'] in ids]`, in ledger order. */
  function BlocksOf(chain: seq<Block>, ids: set<string>): (r: seq<Block>)
    ensures |r| <= |chain|
  {
    if chain == [] then []
    else (if chain[0].batchId in ids then [chain[0]] else []) + BlocksOf(chain[1..], ids)
  }

  /** A block is selected exactly when it is in the chain and its batch id is asked for. */
  lemma {:induction false} BlocksOfMember(chain: seq<Block>, ids: set<string>, b: Block)
    ensures b in BlocksOf(chain, ids) <==> b in chain && b.batchId in ids
  {
    if chain != [] {
      BlocksOfMember(chain[1..], ids, b);
      assert b in chain <==> b == chain[0] || b in chain[1..];
    }
  }

  lemma {:induction false} BlocksOfNothing(chain: seq<Block>)
    ensures BlocksOf(chain, {}) == []
  {
    if chain != [] { BlocksOfNothing(chain[1..]); }
  }

  /** Blocks of two disjoint sets of batch ids are the blocks of each, counted once. */
  lemma {:induction false} BlocksOfUnion(chain: seq<Block>, a: set<string>, b: set<string>)
    requires a !! b
    ensures multiset(BlocksOf(chain, a + b)) == multiset(BlocksOf(chain, a)) + multiset(BlocksOf(chain, b))
  {
    if chain != [] { BlocksOfUnion(chain[1..], a, b); }
  }

  /**
   * `block.get('data_content', {}) or {}`, then the string case: views.py
   * calls `json.loads` without importing `json`, so the bare `except` turns
   * every string content into `{}`.
   */
  function ContentOf(b: Block): (c: Json)
    ensures !c.JStr?
    ensures b.dataContent.Some? && b.dataContent.value.JObj? ==> c == b.dataContent.value
    ensures b.dataContent.Some? && Truthy(b.dataContent.value) && !b.dataContent.value.JStr? ==> c == b.dataContent.value
    ensures b.dataContent.Some? && !Truthy(b.dataContent.value) ==> c == EmptyObject
    ensures b.dataContent.None? || b.dataContent.value.JStr? ==> c == EmptyObject
  {
    var raw := if b.dataContent.Some? && Truthy(b.dataContent.value) then b.dataContent.value else EmptyObject;
    if raw.JStr? then EmptyObject else raw
  }

  /** Python's `str(v)`. */
  function PyStr(env: Env, v: Json): (s: string)
    ensures v.JStr? ==> s == v.s
    ensures v.JInt? ==> s == Decimal(v.i) && (v.i < 0 <==> StartsWith(s, "-"))
    ensures v.JNull? ==> s == "None"
    ensures v.JBool? ==> s == (if v.b then "True" else "False")
  {
    match v
    case JNull => "None"
    case JBool(b) => if b then "True" else "False"
    case JInt(i) => Decimal(i)
    case JStr(s) => s
    case _ => env.pyRepr(v)
  }

  /** A harvest origin as a batch id: `LOTE-x` unless it already starts with "LOTE-". */
  function LotId(origin: string): (id: string)
    ensures StartsWith(id, LotPrefix)
    ensures StartsWith(origin, LotPrefix) ==> id == origin
    ensures !StartsWith(origin, LotPrefix) ==> id == LotPrefix + origin
  {
    if StartsWith(origin, LotPrefix) then origin else LotPrefix + origin
  }

  lemma LotIdIdempotent(origin: string)
    ensures LotId(LotId(origin)) == LotId(origin)
  {
  }

  /*
   * Parent extraction. A block is read in the order the source reads it: its
   * `inputs` one by one, then its harvest origin. `raises` says the source
   * raises an exception (a `.get` on something that is not a dict, or a
   * parent id that is not a string) after following the parent ids `ids`.
   */
  datatype ParentScan = ParentScan(ids: seq<string>, raises: bool)

  /** An `inputs` entry the loop reads without raising: a dict whose truthy `batch_id` is a string. */
  predicate WellFormedInput(entry: Json) {
    entry.JObj? && (Truthy(Get(entry.fields, "batch_id")) ==> Get(entry.fields, "batch_id").JStr?)
  }

  /** Each entry of a well-formed `inputs` list is a dict whose truthy `batch_id` is a string. */
  predicate WellFormedInputs(entries: seq<Json>) {
    forall k :: 0 <= k < |entries| ==> WellFormedInput(entries[k])
  }

  /** The position of the first entry that is not well formed, or the length when there is none. */
  function FirstMalformed(entries: seq<Json>): (k: nat)
    ensures k <= |entries|
    ensures WellFormedInputs(entries[..k])
    ensures k < |entries| ==> !WellFormedInput(entries[k])
  {
    if entries == [] || !WellFormedInput(entries[0]) then 0
    else
      var k := 1 + FirstMalformed(entries[1..]);
      assert entries[..k] == [entries[0]] + entries[1..][..k - 1];
      k
  }

  /** The truthy batch ids of a well-formed list of entries, in order. */
  function BatchIds(entries: seq<Json>): seq<string>
    requires WellFormedInputs(entries)
  {
    if entries == [] then []
    else
      var id := Get(entries[0].fields, "batch_id");
      (if Truthy(id) then [id.s] else []) + BatchIds(entries[1..])
  }

  /**
   * The `inputs` loop: it follows every truthy `batch_id` up to the first
   * entry that is not a dict or whose truthy `batch_id` is not a string, and
   * raises there.
   */
  function InputScan(entries: seq<Json>): (r: ParentScan)
    ensures |r.ids| <= |entries|
    ensures r.raises <==> !WellFormedInputs(entries)
    ensures r.raises <==> FirstMalformed(entries) < |entries|
    ensures r.ids == BatchIds(entries[..FirstMalformed(entries)])
  {
    if entries == [] then ParentScan([], false)
    else match entries[0]
      case JObj(fields) =>
        var parentId := Get(fields, "batch_id");
        assert WellFormedInput(entries[0]) ==>
          entries[..FirstMalformed(entries)][1..] == entries[1..][..FirstMalformed(entries[1..])];
        if !Truthy(parentId) then InputScan(entries[1..])
        else if parentId.JStr? then
          var rest := InputScan(entries[1..]);
          ParentScan([parentId.s] + rest.ids, rest.raises)
        else ParentScan([], true)
      case _ => ParentScan([], true)
  }

  /** A well-formed `inputs` list never raises, and the ids followed are exactly its truthy batch ids. */
  lemma {:induction false} WellFormedInputsFollowed(entries: seq<Json>)
    requires WellFormedInputs(entries)
    ensures !InputScan(entries).raises
    ensures forall k :: 0 <= k < |entries| && Truthy(Get(entries[k].fields, "batch_id")) ==>
              Get(entries[k].fields, "batch_id").s in InputScan(entries).ids
    ensures forall p :: p in InputScan(entries).ids ==>
              exists k :: 0 <= k < |entries| && Get(entries[k].fields, "batch_id") == JStr(p)
  {
    if entries != [] {
      var rest := entries[1..];
      assert WellFormedInputs(rest) by {
        forall k | 0 <= k < |rest| ensures rest[k] == entries[k + 1] { }
      }
      WellFormedInputsFollowed(rest);
      var r := InputScan(entries);
      forall k | 0 < k < |entries| && Truthy(Get(entries[k].fields, "batch_id"))
        ensures Get(entries[k].fields, "batch_id").s in r.ids
      {
        assert entries[k] == rest[k - 1];
      }
      forall p | p in r.ids
        ensures exists k :: 0 <= k < |entries| && Get(entries[k].fields, "batch_id") == JStr(p)
      {
        if p in InputScan(rest).ids {
          var k :| 0 <= k < |rest| && Get(rest[k].fields, "batch_id") == JStr(p);
          assert entries[k + 1] == rest[k];
        } else {
          assert Get(entries[0].fields, "batch_id") == JStr(p);
        }
      }
    }
  }

  /** `content.get('inputs', [])`, followed only when it is a non-empty list. */
  function InputsOf(fields: map<string, Json>): (r: ParentScan)
    ensures "inputs" !in fields || !fields["inputs"].JList? || fields["inputs"].items == [] ==> r == ParentScan([], false)
    ensures "inputs" in fields && fields["inputs"].JList? ==> r == InputScan(fields["inputs"].items)
    ensures r.raises <==> "inputs" in fields && fields["inputs"].JList? && !WellFormedInputs(fields["inputs"].items)
  {
    var inputs := if "inputs" in fields then fields["inputs"] else JList([]);
    if Truthy(inputs) && inputs.JList? then InputScan(inputs.items) else ParentScan([], false)
  }

  /** `harvest_origin` at the root, or under "order" when the root one is falsy; None: raises. */
  function HarvestOriginOf(fields: map<string, Json>): (r: Option<Json>)
    ensures Truthy(Get(fields, "harvest_origin")) ==> r == Some(Get(fields, "harvest_origin"))
    ensures !Truthy(Get(fields, "harvest_origin")) && "order" !in fields ==> r == Some(Get(fields, "harvest_origin"))
    ensures !Truthy(Get(fields, "harvest_origin")) && "order" in fields && fields["order"].JObj? ==>
              r == Some(Get(fields["order"].fields, "harvest_origin"))
    ensures !Truthy(Get(fields, "harvest_origin")) && "order" in fields && !fields["order"].JObj? ==> r.None?
  {
    var origin := Get(fields, "harvest_origin");
    if !Truthy(origin) && "order" in fields then
      match fields["order"]
      case JObj(order) => Some(Get(order, "harvest_origin"))
      case _ => None
    else Some(origin)
  }

  /** The normalised parent id of a harvest origin; empty and "N/A" origins give none; None: raises. */
  function OriginRef(env: Env, origin: Json): (r: Option<seq<string>>)
    ensures r.Some? ==> forall p :: p in r.value ==> StartsWith(p, LotPrefix)
    ensures !Truthy(origin) || PyStr(env, origin) == "N/A" ==> r == Some([])
    ensures origin.JStr? && Truthy(origin) && origin.s != "N/A" ==> r == Some([LotId(origin.s)])
    ensures origin.JInt? && origin.i != 0 ==> r == Some([LotPrefix + Decimal(origin.i)])
  {
    var text := PyStr(env, origin);
    if !Truthy(origin) || text == "N/A" then Some([])
    else if StartsWith(text, LotPrefix) then (if origin.JStr? then Some([origin.s]) else None)
    else Some([LotPrefix + text])
  }

  /** The parent ids one block makes the traversal follow, in order, and whether it then raises. */
  function BlockScan(env: Env, b: Block): (r: ParentScan)
    ensures !ContentOf(b).JObj? ==> r == ParentScan([], true)
    ensures ContentOf(b).JObj? ==>
              var inputs := InputsOf(ContentOf(b).fields);
              var origin := HarvestOriginOf(ContentOf(b).fields);
              && (r.raises <==> inputs.raises || origin.None? || OriginRef(env, origin.value).None?)
              && (r.raises ==> r.ids == inputs.ids)
              && (!r.raises ==> r.ids == inputs.ids + OriginRef(env, origin.value).value)
  {
    match ContentOf(b)
    case JObj(fields) =>
      var inputs := InputsOf(fields);
      if inputs.raises then inputs
      else (match HarvestOriginOf(fields)
            case None => ParentScan(inputs.ids, true)
            case Some(origin) =>
              (match OriginRef(env, origin)
               case Some(o) => ParentScan(inputs.ids + o, false)
               case None => ParentScan(inputs.ids, true)))
    case _ => ParentScan([], true)
  }

  /** The parent ids of a block that does not raise. */
  function BlockRefs(env: Env, b: Block): Option<seq<string>> {
    var scan := BlockScan(env, b);
    if scan.raises then None else Some(scan.ids)
  }

  /** The parent ids of a sequence of blocks; None as soon as one block raises. */
  function ChainRefs(env: Env, bs: seq<Block>): Option<seq<string>> {
    if bs == [] then Some([])
    else match (ChainRefs(env, bs[..|bs| - 1]), BlockRefs(env, bs[|bs| - 1]))
      case (Some(a), Some(b)) => Some(a + b)
      case _ => None
  }

  /** `current_batch_id.replace('ORDER-', '')`. */
  function OrderPk(batchId: string): string {
    ReplaceAll(batchId, OrderPrefix, "")
  }

  /** The batch the database bridge leads to from an "ORDER-" id, if any. */
  function BridgeTarget(env: Env, batchId: string): (r: Option<string>)
    ensures r.Some? ==> StartsWith(batchId, OrderPrefix) && StartsWith(r.value, LotPrefix)
  {
    if StartsWith(batchId, OrderPrefix) then
      match env.orderHarvest(OrderPk(batchId))
      case Some(pk) => Some(LotPrefix + Decimal(pk))
      case None => None
    else None
  }

  /** Two "ORDER-" batches with harvests bridge to the same lot exactly when the harvests are the same. */
  lemma BridgeTargetKey(env: Env, x: string, y: string)
    requires StartsWith(x, OrderPrefix) && StartsWith(y, OrderPrefix)
    requires env.orderHarvest(OrderPk(x)).Some? && env.orderHarvest(OrderPk(y)).Some?
    ensures BridgeTarget(env, x) == BridgeTarget(env, y) <==> env.orderHarvest(OrderPk(x)) == env.orderHarvest(OrderPk(y))
  {
    var p, q := env.orderHarvest(OrderPk(x)).value, env.orderHarvest(OrderPk(y)).value;
    if BridgeTarget(env, x) == BridgeTarget(env, y) {
      assert (LotPrefix + Decimal(p))[|LotPrefix|..] == Decimal(p);
      assert (LotPrefix + Decimal(q))[|LotPrefix|..] == Decimal(q);
      DecimalInjective(p, q);
    }
  }

  /** The bridge is consulted only when the ledger gave no parent reference. */
  function BridgeRefs(env: Env, batchId: string, parentsFound: bool): seq<string> {
    if parentsFound then []
    else match BridgeTarget(env, batchId)
      case Some(t) => [t]
      case None => []
  }

  /** Every batch id the traversal moves to from `batchId`; None if reading its blocks raises. */
  function ParentIds(chain: seq<Block>, env: Env, batchId: string): Option<seq<string>> {
    match ChainRefs(env, BlocksOf(chain, {batchId}))
    case Some(r) => Some(r + BridgeRefs(env, batchId, r != []))
    case None => None
  }

  /** Every id of `ps` is in `v`. */
  predicate AllIn(ps: seq<string>, v: set<string>) {
    forall k :: 0 <= k < |ps| ==> ps[k] in v
  }

  ghost predicate ParentsIn(chain: seq<Block>, env: Env, batchId: string, v: set<string>) {
    ParentIds(chain, env, batchId).Some? && AllIn(ParentIds(chain, env, batchId).value, v)
  }

  /** Every batch id of `s` has all its parents in `v`. */
  ghost predicate Closed(chain: seq<Block>, env: Env, s: set<string>, v: set<string>) {
    forall x {:trigger ParentsIn(chain, env, x, v)} :: x in s ==> ParentsIn(chain, env, x, v)
  }

  /** Some block of a batch in `s` makes the source raise. */
  ghost predicate Raises(chain: seq<Block>, env: Env, s: set<string>) {
    exists i :: 0 <= i < |chain| && chain[i].batchId in s && BlockRefs(env, chain[i]).None?
  }

  /** A batch id with no block in the ledger contributes no ledger reference. */
  lemma NoBlocksNoRefs(chain: seq<Block>, env: Env, batchId: string)
    requires forall b :: b in chain ==> b.batchId != batchId
    ensures ParentIds(chain, env, batchId) == Some(BridgeRefs(env, batchId, false))
  {
    var bs := BlocksOf(chain, {batchId});
    if bs != [] {
      BlocksOfMember(chain, {batchId}, bs[0]);
    }
    assert ChainRefs(env, bs) == Some([]);
    var r := ChainRefs(env, bs).value;
    assert r == [];
    assert ParentIds(chain, env, batchId) == Some(r + BridgeRefs(env, batchId, r != []));
    assert r + BridgeRefs(env, batchId, false) == BridgeRefs(env, batchId, false);
  }

  /** Blocks without "data_content" carry no parent reference. */
  lemma {:induction false} NoContentNoRefs(env: Env, bs: seq<Block>)
    requires forall b :: b in bs ==> b.dataContent.None?
    ensures ChainRefs(env, bs) == Some([])
  {
    if bs != [] {
      var init := bs[..|bs| - 1];
      assert forall b :: b in init ==> b in bs;
      NoContentNoRefs(env, init);
      assert ContentOf(bs[|bs| - 1]) == EmptyObject;
      var none: map<string, Json> := map[];
      assert ContentOf(bs[|bs| - 1]) == JObj(none);
      var e: seq<string> := [];
      assert InputsOf(none) == ParentScan(e, false);
      assert HarvestOriginOf(none) == Some(JNull);
      assert OriginRef(env, JNull) == Some(e);
      assert e + e == e;
      assert BlockScan(env, bs[|bs| - 1]) == ParentScan(e, false);
      assert BlockRefs(env, bs[|bs| - 1]) == Some(e);
      assert ChainRefs(env, bs) == Some(e + e);
    }
  }

  /**
   * The ledger writes the dossier under "content", never "data_content", so
   * on a chain the service built the only way from one batch to another is
   * the order-to-harvest bridge.
   */
  lemma ServiceChainHasOnlyBridges(crypto: Crypto, chain: seq<Block>, env: Env, batchId: string)
    requires ValidChain(crypto, chain)
    ensures ParentIds(chain, env, batchId) == Some(BridgeRefs(env, batchId, false))
  {
    var bs := BlocksOf(chain, {batchId});
    forall b | b in bs ensures b.dataContent.None? {
      BlocksOfMember(chain, {batchId}, b);
      var i :| 0 <= i < |chain| && chain[i] == b;
      assert MockShaped(chain[i]);
    }
    NoContentNoRefs(env, bs);
    assert ChainRefs(env, bs) == Some([]);
    var r := ChainRefs(env, bs).value;
    assert r == [];
    assert ParentIds(chain, env, batchId) == Some(r + BridgeRefs(env, batchId, r != []));
    assert r + BridgeRefs(env, batchId, false) == BridgeRefs(env, batchId, false);
  }

  /**
   * "ORDER-<digits>" without parent references in the ledger is bridged to
   * "LOTE-<harvest pk>" of the harvest linked to order <digits>.
   */
  lemma OrderBridge(chain: seq<Block>, env: Env, digits: string, harvestPk: int)
    requires forall k :: 0 <= k < |digits| ==> '0' <= digits[k] <= '9'
    requires ChainRefs(env, BlocksOf(chain, {OrderPrefix + digits})) == Some([])
    requires env.orderHarvest(digits) == Some(harvestPk)
    ensures ParentIds(chain, env, OrderPrefix + digits) == Some([LotPrefix + Decimal(harvestPk)])
  {
    DigitsAvoid(digits, OrderPrefix);
    ReplaceLeading(OrderPrefix, digits, "");
    var id := OrderPrefix + digits;
    assert OrderPk(id) == digits;
    assert id[..|OrderPrefix|] == OrderPrefix;
    assert BridgeTarget(env, id) == Some(LotPrefix + Decimal(harvestPk));
    var r := ChainRefs(env, BlocksOf(chain, {id})).value;
    assert r == [];
    assert ParentIds(chain, env, id) == Some(r + BridgeRefs(env, id, r != []));
    assert r + BridgeRefs(env, id, false) == [LotPrefix + Decimal(harvestPk)];
  }

  /*
   * Termination: every batch id the traversal can reach lies in a finite
   * universe, and each step removes one id of it from the unvisited part.
   */

  /** The parent ids the traversal can follow from any block of the chain. */
  function AllRefs(env: Env, chain: seq<Block>): seq<string> {
    if chain == [] then [] else AllRefs(env, chain[..|chain| - 1]) + BlockScan(env, chain[|chain| - 1]).ids
  }

  /** The start id and every parent id written in some block. */
  ghost function Base(chain: seq<Block>, env: Env, root: string): set<string> {
    {root} + (set p | p in AllRefs(env, chain))
  }

  ghost function BridgeTargets(env: Env, ids: set<string>): (r: set<string>)
    ensures forall t :: t in r ==> StartsWith(t, LotPrefix)
  {
    set x | x in ids && BridgeTarget(env, x).Some? :: BridgeTarget(env, x).value
  }

  ghost function Universe(chain: seq<Block>, env: Env, root: string): set<string> {
    Base(chain, env, root) + BridgeTargets(env, Base(chain, env, root))
  }

  /** `u` holds every parent id written in a block of the chain. */
  ghost predicate HoldsAllRefs(chain: seq<Block>, env: Env, u: set<string>) {
    AllIn(AllRefs(env, chain), u)
  }

  /** `u` holds the bridge target of each of its ids. */
  ghost predicate BridgeClosed(env: Env, u: set<string>) {
    forall x {:trigger BridgeTarget(env, x)} :: x in u && BridgeTarget(env, x).Some? ==> BridgeTarget(env, x).value in u
  }

  /** The universe bounds every traversal that starts at `root`. */
  lemma UniverseBounds(chain: seq<Block>, env: Env, root: string)
    ensures root in Universe(chain, env, root)
    ensures HoldsAllRefs(chain, env, Universe(chain, env, root))
    ensures BridgeClosed(env, Universe(chain, env, root))
  {
    var u := Universe(chain, env, root);
    forall x | x in u && BridgeTarget(env, x).Some? ensures BridgeTarget(env, x).value in u {
      BridgeTargetInUniverse(chain, env, root, x);
    }
  }

  lemma {:induction false} BlockRefsInAll(env: Env, chain: seq<Block>, b: Block, p: string)
    requires b in chain && p in BlockScan(env, b).ids
    ensures p in AllRefs(env, chain)
  {
    var last := chain[|chain| - 1];
    if b != last {
      assert b in chain[..|chain| - 1] by { assert chain == chain[..|chain| - 1] + [last]; }
      BlockRefsInAll(env, chain[..|chain| - 1], b, p);
    }
  }

  lemma BridgeTargetInUniverse(chain: seq<Block>, env: Env, root: string, x: string)
    requires x in Universe(chain, env, root) && BridgeTarget(env, x).Some?
    ensures BridgeTarget(env, x).value in Universe(chain, env, root)
  {
    assert x[0] == OrderPrefix[0] != LotPrefix[0];
    assert !StartsWith(x, LotPrefix);
    assert x in Base(chain, env, root);
  }

  lemma {:induction false} SubsetCardinality(a: set<string>, b: set<string>)
    requires a <= b
    ensures |a| <= |b|
    decreases |a|
  {
    if a != {} {
      var y :| y in a;
      SubsetCardinality(a - {y}, b - {y});
    }
  }

  lemma FewerUnvisited(u: set<string>, visited: set<string>, later: set<string>, x: string)
    requires x in u && x !in visited && visited + {x} <= later
    ensures |u - later| < |u - visited|
  {
    SubsetCardinality(u - later, (u - visited) - {x});
  }

  lemma {:induction false} ClosedGrows(chain: seq<Block>, env: Env, s: set<string>, v: set<string>, w: set<string>)
    requires Closed(chain, env, s, v) && v <= w
    ensures Closed(chain, env, s, w)
  {
    forall x | x in s ensures ParentsIn(chain, env, x, w) {
      assert ParentsIn(chain, env, x, v);
    }
  }

  lemma ChainRefsStep(env: Env, bs: seq<Block>, i: nat)
    requires i < |bs| && ChainRefs(env, bs[..i]).Some? && BlockRefs(env, bs[i]).Some?
    ensures ChainRefs(env, bs[..i + 1]) == Some(ChainRefs(env, bs[..i]).value + BlockRefs(env, bs[i]).value)
  {
    assert bs[..i + 1][..i] == bs[..i];
  }

  lemma RaisesGrows(chain: seq<Block>, env: Env, s: set<string>, t: set<string>)
    requires Raises(chain, env, s) && s <= t
    ensures Raises(chain, env, t)
  {
  }

  lemma RaisesAt(chain: seq<Block>, env: Env, root: string, b: Block, s: set<string>)
    requires b in chain && b.batchId in s && BlockRefs(env, b).None? && Reachable(chain, env, root, b.batchId, false)
    ensures RaisesFrom(chain, env, root, s)
  {
  }

  /*
   * Reachability. From a batch id the traversal moves to the parent ids its
   * blocks name, block by block, up to and including the first block that
   * raises; when none raises and none names a parent, it moves on through the
   * bridge. The ledger-only relation leaves the bridge out.
   */

  /** The parent ids named by `bs`, up to and including the first block that raises. */
  function FollowedIds(env: Env, bs: seq<Block>): seq<string> {
    if bs == [] then []
    else
      var init := bs[..|bs| - 1];
      if ChainRefs(env, init).None? then FollowedIds(env, init)
      else FollowedIds(env, init) + BlockScan(env, bs[|bs| - 1]).ids
  }

  /** The ids the traversal may move to from `x`; through the bridge only when `bridges`. */
  function Successors(chain: seq<Block>, env: Env, x: string, bridges: bool): seq<string> {
    var bs := BlocksOf(chain, {x});
    var ledger := ChainRefs(env, bs);
    FollowedIds(env, bs) + (if bridges && ledger.Some? then BridgeRefs(env, x, ledger.value != []) else [])
  }

  /** The moves of the traversal as a function, for the reachability lemmas below. */
  ghost function Moves(chain: seq<Block>, env: Env, bridges: bool): string -> seq<string> {
    x => Successors(chain, env, x, bridges)
  }

  /** The ids one move of `next` away from some id of `s`. */
  ghost function NextStep(next: string -> seq<string>, s: set<string>): set<string> {
    set x, y | x in s && y in next(x) :: y
  }

  /** The ids reachable from `root` in at most `n` moves of `next`. */
  ghost function ReachWithin(next: string -> seq<string>, root: string, n: nat): set<string> {
    if n == 0 then {root}
    else
      var prev := ReachWithin(next, root, n - 1);
      prev + NextStep(next, prev)
  }

  ghost predicate ReachableBy(next: string -> seq<string>, root: string, y: string) {
    exists n: nat :: y in ReachWithin(next, root, n)
  }

  /** `y` is reachable from `root`; through bridges too when `bridges`. */
  ghost predicate Reachable(chain: seq<Block>, env: Env, root: string, y: string, bridges: bool) {
    ReachableBy(Moves(chain, env, bridges), root, y)
  }

  /** Every id of `s` is reachable from `root`, bridges included. */
  ghost predicate AllReachable(chain: seq<Block>, env: Env, root: string, s: set<string>) {
    forall y :: y in s ==> Reachable(chain, env, root, y, true)
  }

  /** A block of a batch in `s` raises, and that batch is reachable from `root` through the ledger alone. */
  ghost predicate RaisesFrom(chain: seq<Block>, env: Env, root: string, s: set<string>) {
    exists i :: 0 <= i < |chain| && chain[i].batchId in s && BlockRefs(env, chain[i]).None?
                && Reachable(chain, env, root, chain[i].batchId, false)
  }

  /** The blocks of `x` raise nothing and name no parent, and its bridge leads somewhere. */
  ghost predicate TookBridge(chain: seq<Block>, env: Env, x: string) {
    ChainRefs(env, BlocksOf(chain, {x})) == Some([]) && BridgeTarget(env, x).Some?
  }

  /** Every id of `d` is reachable from the bridge target of an id of `v` that took its bridge. */
  ghost predicate Dropped(chain: seq<Block>, env: Env, d: set<string>, v: set<string>) {
    forall y :: y in d ==>
      exists x :: x in v && TookBridge(chain, env, x) && Reachable(chain, env, BridgeTarget(env, x).value, y, true)
  }

  lemma NextStepHas(next: string -> seq<string>, s: set<string>, x: string, y: string)
    requires x in s && y in next(x)
    ensures y in NextStep(next, s)
  {
  }

  lemma NextStepGrows(next: string -> seq<string>, s: set<string>, t: set<string>)
    requires s <= t
    ensures NextStep(next, s) <= NextStep(next, t)
  {
    forall y | y in NextStep(next, s) ensures y in NextStep(next, t) {
      var x :| x in s && y in next(x);
      NextStepHas(next, t, x, y);
    }
  }

  /** `n` moves from an id `m` moves away from `root` are `m + n` moves from `root`. */
  lemma {:induction false} ReachWithinTrans(next: string -> seq<string>, root: string, p: string, m: nat, n: nat)
    requires p in ReachWithin(next, root, m)
    ensures ReachWithin(next, p, n) <= ReachWithin(next, root, m + n)
  {
    if n > 0 {
      ReachWithinTrans(next, root, p, m, n - 1);
      NextStepGrows(next, ReachWithin(next, p, n - 1), ReachWithin(next, root, m + n - 1));
    }
  }

  /** A set that holds `root` and every id one move from its ids holds all that is reachable from `root`. */
  lemma {:induction false} ReachWithinStays(next: string -> seq<string>, root: string, s: set<string>, n: nat)
    requires root in s && NextStep(next, s) <= s
    ensures ReachWithin(next, root, n) <= s
  {
    if n > 0 {
      ReachWithinStays(next, root, s, n - 1);
      NextStepGrows(next, ReachWithin(next, root, n - 1), s);
    }
  }

  lemma ReachRoot(chain: seq<Block>, env: Env, root: string, bridges: bool)
    ensures Reachable(chain, env, root, root, bridges)
  {
    assert root in ReachWithin(Moves(chain, env, bridges), root, 0);
  }

  lemma ReachStep(chain: seq<Block>, env: Env, root: string, p: string, y: string, bridges: bool)
    requires Reachable(chain, env, root, p, bridges) && y in Successors(chain, env, p, bridges)
    ensures Reachable(chain, env, root, y, bridges)
  {
    var next := Moves(chain, env, bridges);
    var n: nat :| p in ReachWithin(next, root, n);
    NextStepHas(next, ReachWithin(next, root, n), p, y);
    assert y in ReachWithin(next, root, n + 1);
  }

  lemma ReachTrans(chain: seq<Block>, env: Env, root: string, p: string, y: string, bridges: bool)
    requires Reachable(chain, env, root, p, bridges) && Reachable(chain, env, p, y, bridges)
    ensures Reachable(chain, env, root, y, bridges)
  {
    var next := Moves(chain, env, bridges);
    var m: nat :| p in ReachWithin(next, root, m);
    var n: nat :| y in ReachWithin(next, p, n);
    ReachWithinTrans(next, root, p, m, n);
    assert y in ReachWithin(next, root, m + n);
  }

  /** What is reachable from a successor of `root` is reachable from `root`. */
  lemma AllReachableThrough(chain: seq<Block>, env: Env, root: string, p: string, s: set<string>)
    requires p in Successors(chain, env, root, true) && AllReachable(chain, env, p, s)
    ensures AllReachable(chain, env, root, s)
  {
    ReachRoot(chain, env, root, true);
    ReachStep(chain, env, root, root, p, true);
    forall y | y in s ensures Reachable(chain, env, root, y, true) {
      ReachTrans(chain, env, root, p, y, true);
    }
  }

  /** Two consecutive stretches of visited ids reachable from `root` make one. */
  lemma AllReachableJoin(chain: seq<Block>, env: Env, root: string, from: set<string>, mid: set<string>, to: set<string>)
    requires from <= mid <= to
    requires AllReachable(chain, env, root, mid - from) && AllReachable(chain, env, root, to - mid)
    ensures AllReachable(chain, env, root, to - from)
  {
    forall y | y in to - from ensures Reachable(chain, env, root, y, true) {
      if y in mid { assert y in mid - from; } else { assert y in to - mid; }
    }
  }

  /** A raise reachable from a ledger successor of `root` is reachable from `root`. */
  lemma RaisesFromThrough(chain: seq<Block>, env: Env, root: string, p: string, s: set<string>, t: set<string>)
    requires p in Successors(chain, env, root, false) && RaisesFrom(chain, env, p, s) && s <= t
    ensures RaisesFrom(chain, env, root, t)
  {
    ReachRoot(chain, env, root, false);
    ReachStep(chain, env, root, root, p, false);
    var i :| 0 <= i < |chain| && chain[i].batchId in s && BlockRefs(env, chain[i]).None?
             && Reachable(chain, env, p, chain[i].batchId, false);
    ReachTrans(chain, env, root, p, chain[i].batchId, false);
  }

  lemma RaisesFromGrows(chain: seq<Block>, env: Env, root: string, s: set<string>, t: set<string>)
    requires RaisesFrom(chain, env, root, s) && s <= t
    ensures RaisesFrom(chain, env, root, t) && Raises(chain, env, t)
  {
  }

  /** The ids named by a prefix of the blocks are among those named by all of them. */
  lemma {:induction false} FollowedIdsGrow(env: Env, bs: seq<Block>, j: nat, p: string)
    requires j <= |bs| && p in FollowedIds(env, bs[..j])
    ensures p in FollowedIds(env, bs)
    decreases |bs| - j
  {
    if j < |bs| {
      assert bs[..j + 1][..j] == bs[..j];
      assert p in FollowedIds(env, bs[..j + 1]);
      FollowedIdsGrow(env, bs, j + 1, p);
    } else {
      assert bs[..j] == bs;
    }
  }

  /** Once the blocks before `bs[i]` raised nothing, the ids `bs[i]` names are followed. */
  lemma ScanFollowed(env: Env, bs: seq<Block>, i: nat, p: string)
    requires i < |bs| && ChainRefs(env, bs[..i]).Some? && p in BlockScan(env, bs[i]).ids
    ensures p in FollowedIds(env, bs)
  {
    assert bs[..i + 1][..i] == bs[..i];
    assert p in FollowedIds(env, bs[..i + 1]);
    FollowedIdsGrow(env, bs, i + 1, p);
  }

  /** When no block raises, the ids followed are all the ids named. */
  lemma {:induction false} FollowedIdsComplete(env: Env, bs: seq<Block>)
    requires ChainRefs(env, bs).Some?
    ensures FollowedIds(env, bs) == ChainRefs(env, bs).value
  {
    if bs != [] { FollowedIdsComplete(env, bs[..|bs| - 1]); }
  }

  /** When the blocks of `x` raise nothing, its successors are its parent ids. */
  lemma SuccessorsAreParents(chain: seq<Block>, env: Env, x: string)
    requires ParentIds(chain, env, x).Some?
    ensures Successors(chain, env, x, true) == ParentIds(chain, env, x).value
  {
    FollowedIdsComplete(env, BlocksOf(chain, {x}));
  }

  /** A set that holds the parents of each of its ids holds every id one move away. */
  lemma NextStepClosed(chain: seq<Block>, env: Env, s: set<string>)
    requires Closed(chain, env, s, s)
    ensures NextStep(Moves(chain, env, true), s) <= s
  {
    forall y | y in NextStep(Moves(chain, env, true), s) ensures y in s {
      var x :| x in s && y in Successors(chain, env, x, true);
      assert ParentsIn(chain, env, x, s);
      SuccessorsAreParents(chain, env, x);
      var ps := ParentIds(chain, env, x).value;
      var k :| 0 <= k < |ps| && ps[k] == y;
    }
  }

  /** From an id of a set that holds the parents of each of its ids, nothing reachable leaves the set. */
  lemma ReachClosed(chain: seq<Block>, env: Env, root: string, s: set<string>)
    requires root in s && Closed(chain, env, s, s)
    ensures forall y :: Reachable(chain, env, root, y, true) ==> y in s
  {
    NextStepClosed(chain, env, s);
    forall y | Reachable(chain, env, root, y, true) ensures y in s {
      var n: nat :| y in ReachWithin(Moves(chain, env, true), root, n);
      ReachWithinStays(Moves(chain, env, true), root, s, n);
    }
  }

  lemma DroppedJoin(chain: seq<Block>, env: Env, d1: set<string>, d2: set<string>, v: set<string>, w: set<string>,
                    d: set<string>)
    requires Dropped(chain, env, d1, v) && Dropped(chain, env, d2, w) && v <= w && d <= d1 + d2
    ensures Dropped(chain, env, d, w)
  {
    forall y | y in d
      ensures exists x :: x in w && TookBridge(chain, env, x) && Reachable(chain, env, BridgeTarget(env, x).value, y, true)
    {
      if y in d1 {
        var x :| x in v && TookBridge(chain, env, x) && Reachable(chain, env, BridgeTarget(env, x).value, y, true);
        assert x in w;
      }
    }
  }

  /**
   * Where no visited batch took its bridge, nothing visited can be left out: an exception that the
   * bridge's `except` did not catch is never turned into a partial result.
   */
  lemma NothingDroppedWithoutBridge(chain: seq<Block>, env: Env, d: set<string>, v: set<string>)
    requires Dropped(chain, env, d, v)
    requires forall x :: x in v ==> !TookBridge(chain, env, x)
    ensures d == {}
  {
  }

  /**
   * What one stretch of the traversal, which moved `visited` from `from` to
   * `to`, has to show: `related` holds exactly the blocks of `collected`, a set
   * of ids it visited whose parents are all visited; every other id it visited
   * was reached through the bridge of a batch it visited, by a bridged
   * traversal that raised.
   */
  ghost predicate Accounted(chain: seq<Block>, env: Env, related: seq<Block>, collected: set<string>,
                            from: set<string>, to: set<string>)
  {
    && collected <= to - from
    && multiset(related) == multiset(BlocksOf(chain, collected))
    && Closed(chain, env, collected, to)
    && (to - from - collected == {} || Raises(chain, env, to - from - collected))
    && Dropped(chain, env, to - from - collected, to)
  }

  /**
   * fetch_genealogy(current_batch_id, visited). The ghost `u` is a finite
   * set of batch ids that holds every id the traversal can reach; it only
   * bounds the recursion. `visitedOut` is `visited` when the call returns or
   * raises (`ok` false); `collected` is the set of ids whose blocks it returned.
   */
  method FetchGenealogy(chain: seq<Block>, env: Env, currentBatchId: string, visited: set<string>, ghost u: set<string>)
    returns (related: seq<Block>, visitedOut: set<string>, ok: bool, ghost collected: set<string>)
    requires HoldsAllRefs(chain, env, u) && BridgeClosed(env, u)
    requires currentBatchId in u
    ensures visited <= visitedOut && currentBatchId in visitedOut
    ensures AllReachable(chain, env, currentBatchId, visitedOut - visited)
    ensures currentBatchId in visited ==> related == [] && visitedOut == visited && ok && collected == {}
    ensures ok ==> Accounted(chain, env, related, collected, visited, visitedOut)
    ensures ok && currentBatchId !in visited ==> currentBatchId in collected && BlocksOf(chain, {currentBatchId}) <= related
    ensures !ok ==> related == [] && RaisesFrom(chain, env, currentBatchId, visitedOut - visited)
    decreases |u - visited|, 0
  {
    if currentBatchId in visited {
      BlocksOfNothing(chain);
      assert visited - visited - {} == {};
      return [], visited, true, {};
    }
    visitedOut := visited + {currentBatchId};
    var myBlocks := BlocksOf(chain, {currentBatchId});
    FewerUnvisited(u, visited, visitedOut, currentBatchId);
    var parentBlocks, v, parentsOk, parentsFound, c := FollowBlocks(chain, env, myBlocks, visitedOut, u, visited, currentBatchId);
    ReachRoot(chain, env, currentBatchId, true);
    assert AllReachable(chain, env, currentBatchId, visitedOut - visited) by {
      assert visitedOut - visited == {currentBatchId};
    }
    AllReachableJoin(chain, env, currentBatchId, visited, visitedOut, v);
    if !parentsOk {
      return [], v, false, {};
    }
    ghost var ledgerParents := ChainRefs(env, myBlocks).value;
    assert ParentIds(chain, env, currentBatchId) == Some(ledgerParents + BridgeRefs(env, currentBatchId, parentsFound));
    FewerUnvisited(u, visited, v, currentBatchId);
    var bridged, w, c2, _ := FollowBridge(chain, env, currentBatchId, parentsFound, visitedOut, v, parentBlocks, c, u);
    AllInJoin(ledgerParents, BridgeRefs(env, currentBatchId, parentsFound), v, w);
    CurrentAccounted(chain, env, currentBatchId, visited, w, bridged, c2);
    AllReachableJoin(chain, env, currentBatchId, visited, v, w);
    related, visitedOut, ok, collected := myBlocks + bridged, w, true, {currentBatchId} + c2;
  }

  /**
   * The database bridge. It is consulted only for an "ORDER-" batch whose
   * blocks gave no parent, and followed only when the order has a harvest.
   */
  method FollowBridge(chain: seq<Block>, env: Env, currentBatchId: string, parentsFound: bool,
                      visitedIn: set<string>, visitedNow: set<string>, related: seq<Block>, ghost collected: set<string>,
                      ghost u: set<string>)
    returns (relatedOut: seq<Block>, visitedOut: set<string>, ghost collectedOut: set<string>, ghost swallowed: bool)
    requires HoldsAllRefs(chain, env, u) && BridgeClosed(env, u)
    requires currentBatchId in u && currentBatchId in visitedIn && visitedIn <= visitedNow
    requires ChainRefs(env, BlocksOf(chain, {currentBatchId})).Some?
    requires parentsFound == (ChainRefs(env, BlocksOf(chain, {currentBatchId})).value != [])
    requires Accounted(chain, env, related, collected, visitedIn, visitedNow)
    ensures visitedNow <= visitedOut && related <= relatedOut && collected <= collectedOut
    ensures BridgeRefs(env, currentBatchId, parentsFound) == [] ==> relatedOut == related && visitedOut == visitedNow
    ensures swallowed ==> TookBridge(chain, env, currentBatchId) && relatedOut == related && collectedOut == collected
    ensures swallowed ==> RaisesFrom(chain, env, BridgeTarget(env, currentBatchId).value, visitedOut - visitedNow)
    ensures AllIn(BridgeRefs(env, currentBatchId, parentsFound), visitedOut)
    ensures AllReachable(chain, env, currentBatchId, visitedOut - visitedNow)
    ensures Accounted(chain, env, relatedOut, collectedOut, visitedIn, visitedOut)
    decreases |u - visitedNow|, 2
  {
    relatedOut, visitedOut, collectedOut, swallowed := related, visitedNow, collected, false;
    if StartsWith(currentBatchId, OrderPrefix) && !parentsFound {
      var orderPk := ReplaceAll(currentBatchId, OrderPrefix, "");
      var harvestPk := env.orderHarvest(orderPk);
      if harvestPk.Some? {
        var harvestBatchId := LotPrefix + Decimal(harvestPk.value);
        assert BridgeRefs(env, currentBatchId, parentsFound) == [harvestBatchId];
        relatedOut, visitedOut, collectedOut, swallowed :=
          FollowHarvest(chain, env, currentBatchId, harvestBatchId, visitedIn, visitedNow, related, collected, u);
        return;
      }
    }
    assert BridgeRefs(env, currentBatchId, parentsFound) == [];
  }

  /**
   * The bridged traversal, from the harvest batch of an "ORDER-" batch that
   * took its bridge. Whatever it raises is caught and dropped (`swallowed`),
   * with the blocks it had gathered; the ids it visited stay visited.
   */
  method FollowHarvest(chain: seq<Block>, env: Env, currentBatchId: string, harvestBatchId: string,
                       visitedIn: set<string>, visitedNow: set<string>, related: seq<Block>, ghost collected: set<string>,
                       ghost u: set<string>)
    returns (relatedOut: seq<Block>, visitedOut: set<string>, ghost collectedOut: set<string>, ghost swallowed: bool)
    requires HoldsAllRefs(chain, env, u) && BridgeClosed(env, u)
    requires currentBatchId in u && currentBatchId in visitedIn && visitedIn <= visitedNow
    requires TookBridge(chain, env, currentBatchId) && harvestBatchId == BridgeTarget(env, currentBatchId).value
    requires Accounted(chain, env, related, collected, visitedIn, visitedNow)
    ensures visitedNow + {harvestBatchId} <= visitedOut && related <= relatedOut && collected <= collectedOut
    ensures swallowed ==> relatedOut == related && collectedOut == collected
    ensures swallowed ==> RaisesFrom(chain, env, harvestBatchId, visitedOut - visitedNow)
    ensures AllReachable(chain, env, currentBatchId, visitedOut - visitedNow)
    ensures Accounted(chain, env, relatedOut, collectedOut, visitedIn, visitedOut)
    decreases |u - visitedNow|, 1
  {
    var ledger: seq<string> := ChainRefs(env, BlocksOf(chain, {currentBatchId})).value;
    assert ledger == [];
    assert BridgeRefs(env, currentBatchId, ledger != []) == [harvestBatchId];
    assert harvestBatchId in Successors(chain, env, currentBatchId, true);
    var bridged, w, bridgedOk, c := FetchGenealogy(chain, env, harvestBatchId, visitedNow, u);
    AllReachableThrough(chain, env, currentBatchId, harvestBatchId, w - visitedNow);
    relatedOut, visitedOut, collectedOut, swallowed := related, w, collected, !bridgedOk;
    if bridgedOk {
      Absorb(chain, env, visitedIn, visitedNow, w, related, bridged, collected, c);
      relatedOut, collectedOut := related + bridged, collected + c;
    } else {
      Abandon(chain, env, visitedIn, visitedNow, w, related, collected, currentBatchId);
    }
  }

  /**
   * The loop over `my_blocks`, the blocks of `root`: follow the parents of
   * each block in turn. `visited0` is the visited set before the enclosing
   * call, which added `root`.
   */
  method FollowBlocks(chain: seq<Block>, env: Env, blocks: seq<Block>, visitedIn: set<string>, ghost u: set<string>,
                      ghost visited0: set<string>, ghost root: string)
    returns (related: seq<Block>, visitedOut: set<string>, ok: bool, parentsFound: bool, ghost collected: set<string>)
    requires HoldsAllRefs(chain, env, u) && BridgeClosed(env, u)
    requires visited0 <= visitedIn && root in visitedIn - visited0
    requires blocks == BlocksOf(chain, {root})
    ensures visitedIn <= visitedOut
    ensures AllReachable(chain, env, root, visitedOut - visitedIn)
    ensures ok ==> ChainRefs(env, blocks).Some?
    ensures ok ==> parentsFound == (ChainRefs(env, blocks).value != [])
    ensures ok ==> AllIn(ChainRefs(env, blocks).value, visitedOut)
    ensures ok ==> Accounted(chain, env, related, collected, visitedIn, visitedOut)
    ensures !ok ==> related == [] && RaisesFrom(chain, env, root, visitedOut - visited0)
    decreases |u - visitedIn|, 4
  {
    related, visitedOut, parentsFound, collected := [], visitedIn, false, {};
    BlocksOfNothing(chain);
    assert visitedIn - visitedIn - {} == {};
    var i := 0;
    while i < |blocks|
      invariant i <= |blocks|
      invariant visitedIn <= visitedOut
      invariant AllReachable(chain, env, root, visitedOut - visitedIn)
      invariant ChainRefs(env, blocks[..i]).Some?
      invariant parentsFound == (ChainRefs(env, blocks[..i]).value != [])
      invariant AllIn(ChainRefs(env, blocks[..i]).value, visitedOut)
      invariant Accounted(chain, env, related, collected, visitedIn, visitedOut)
    {
      SubsetCardinality(u - visitedOut, u - visitedIn);
      var more, v, refs, blockOk, c := FollowBlock(chain, env, blocks, i, visitedIn, visitedOut, related, collected,
                                                   u, visited0, root);
      AllReachableJoin(chain, env, root, visitedIn, visitedOut, v);
      if !blockOk {
        return [], v, false, parentsFound, {};
      }
      related, visitedOut, collected := more, v, c;
      parentsFound := parentsFound || refs != [];
      i := i + 1;
    }
    assert blocks[..i] == blocks;
    ok := true;
  }

  /**
   * One iteration of that loop: follow the parent ids of `blocks[i]` in
   * order, folding in their blocks, and raise afterwards if the block does.
   */
  method FollowBlock(chain: seq<Block>, env: Env, blocks: seq<Block>, i: nat, visitedIn: set<string>,
                     visitedNow: set<string>, related: seq<Block>, ghost collected: set<string>,
                     ghost u: set<string>, ghost visited0: set<string>, ghost root: string)
    returns (relatedOut: seq<Block>, visitedOut: set<string>, refs: seq<string>, ok: bool, ghost collectedOut: set<string>)
    requires HoldsAllRefs(chain, env, u) && BridgeClosed(env, u)
    requires visited0 <= visitedIn <= visitedNow && root in visitedIn - visited0
    requires blocks == BlocksOf(chain, {root})
    requires i < |blocks| && ChainRefs(env, blocks[..i]).Some? && AllIn(ChainRefs(env, blocks[..i]).value, visitedNow)
    requires Accounted(chain, env, related, collected, visitedIn, visitedNow)
    ensures visitedNow <= visitedOut
    ensures AllReachable(chain, env, root, visitedOut - visitedNow)
    ensures ok ==> ChainRefs(env, blocks[..i + 1]) == Some(ChainRefs(env, blocks[..i]).value + refs)
    ensures ok ==> AllIn(ChainRefs(env, blocks[..i + 1]).value, visitedOut)
    ensures ok ==> Accounted(chain, env, relatedOut, collectedOut, visitedIn, visitedOut)
    ensures !ok ==> RaisesFrom(chain, env, root, visitedOut - visited0)
    decreases |u - visitedNow|, 3
  {
    var block := blocks[i];
    BlocksOfMember(chain, {root}, block);
    var scan := BlockScan(env, block);
    refs := scan.ids;
    forall k | 0 <= k < |refs| ensures refs[k] in u && refs[k] in Successors(chain, env, root, false) {
      BlockRefsInAll(env, chain, block, refs[k]);
      ScanFollowed(env, blocks, i, refs[k]);
    }
    var more, v, moreOk, c := FollowParents(chain, env, refs, visitedNow, u, root);
    relatedOut, visitedOut, ok, collectedOut := related, v, false, collected;
    if !moreOk {
      RaisesFromGrows(chain, env, root, v - visitedNow, v - visited0);
      return;
    }
    if scan.raises {
      ReachRoot(chain, env, root, false);
      RaisesAt(chain, env, root, block, v - visited0);
      return;
    }
    ChainRefsStep(env, blocks, i);
    Absorb(chain, env, visitedIn, visitedNow, v, related, more, collected, c);
    AllInJoin(ChainRefs(env, blocks[..i]).value, refs, visitedNow, v);
    relatedOut, ok, collectedOut := related + more, true, collected + c;
  }

  /** The ids of `a` and then `b` are all in `w` once `a`'s were in a subset of it. */
  lemma AllInJoin(a: seq<string>, b: seq<string>, v: set<string>, w: set<string>)
    requires AllIn(a, v) && v <= w && AllIn(b, w)
    ensures AllIn(a + b, w)
  {
    forall k | 0 <= k < |a + b| ensures (a + b)[k] in w {
      if k < |a| { assert (a + b)[k] == a[k]; } else { assert (a + b)[k] == b[k - |a|]; }
    }
  }

  /** One more id of `ps` is in `w`, a superset of `v`. */
  lemma AllInExtend(ps: seq<string>, j: nat, v: set<string>, w: set<string>)
    requires j < |ps| && AllIn(ps[..j], v) && v <= w && ps[j] in w
    ensures AllIn(ps[..j + 1], w)
  {
    assert ps[..j + 1] == ps[..j] + [ps[j]];
  }

  /** The loop over one block's parent ids, each a ledger successor of `root`: `fetch_genealogy` on each, sharing `visited`. */
  method FollowParents(chain: seq<Block>, env: Env, parentIds: seq<string>, visitedIn: set<string>, ghost u: set<string>,
                       ghost root: string)
    returns (related: seq<Block>, visitedOut: set<string>, ok: bool, ghost collected: set<string>)
    requires HoldsAllRefs(chain, env, u) && BridgeClosed(env, u)
    requires AllIn(parentIds, u)
    requires forall k :: 0 <= k < |parentIds| ==> parentIds[k] in Successors(chain, env, root, false)
    ensures visitedIn <= visitedOut
    ensures AllReachable(chain, env, root, visitedOut - visitedIn)
    ensures ok ==> AllIn(parentIds, visitedOut)
    ensures ok ==> Accounted(chain, env, related, collected, visitedIn, visitedOut)
    ensures !ok ==> related == [] && RaisesFrom(chain, env, root, visitedOut - visitedIn)
    decreases |u - visitedIn|, 2
  {
    related, visitedOut, collected := [], visitedIn, {};
    BlocksOfNothing(chain);
    assert visitedIn - visitedIn - {} == {};
    var j := 0;
    while j < |parentIds|
      invariant j <= |parentIds|
      invariant visitedIn <= visitedOut
      invariant AllReachable(chain, env, root, visitedOut - visitedIn)
      invariant AllIn(parentIds[..j], visitedOut)
      invariant Accounted(chain, env, related, collected, visitedIn, visitedOut)
    {
      SubsetCardinality(u - visitedOut, u - visitedIn);
      var more, v, parentOk, c := FollowParent(chain, env, parentIds[j], visitedIn, visitedOut, related, collected, u, root);
      AllReachableJoin(chain, env, root, visitedIn, visitedOut, v);
      if !parentOk {
        return [], v, false, {};
      }
      AllInExtend(parentIds, j, visitedOut, v);
      related, visitedOut, collected := more, v, c;
      j := j + 1;
    }
    assert parentIds[..j] == parentIds;
    ok := true;
  }

  /** One iteration of that loop: visit one parent and fold its blocks into `related`. */
  method FollowParent(chain: seq<Block>, env: Env, parentId: string, visitedIn: set<string>, visitedNow: set<string>,
                      related: seq<Block>, ghost collected: set<string>, ghost u: set<string>, ghost root: string)
    returns (relatedOut: seq<Block>, visitedOut: set<string>, ok: bool, ghost collectedOut: set<string>)
    requires HoldsAllRefs(chain, env, u) && BridgeClosed(env, u)
    requires parentId in u && parentId in Successors(chain, env, root, false)
    requires visitedIn <= visitedNow
    requires Accounted(chain, env, related, collected, visitedIn, visitedNow)
    ensures visitedNow + {parentId} <= visitedOut
    ensures AllReachable(chain, env, root, visitedOut - visitedNow)
    ensures ok ==> Accounted(chain, env, relatedOut, collectedOut, visitedIn, visitedOut)
    ensures !ok ==> RaisesFrom(chain, env, root, visitedOut - visitedIn)
    decreases |u - visitedNow|, 1
  {
    var parentBlocks, v, parentOk, c := FetchGenealogy(chain, env, parentId, visitedNow, u);
    assert parentId in Successors(chain, env, root, true);
    AllReachableThrough(chain, env, root, parentId, v - visitedNow);
    relatedOut, visitedOut, ok, collectedOut := related, v, parentOk, collected;
    if !parentOk {
      RaisesFromThrough(chain, env, root, parentId, v - visitedNow, v - visitedIn);
      return;
    }
    Absorb(chain, env, visitedIn, visitedNow, v, related, parentBlocks, collected, c);
    relatedOut, collectedOut := related + parentBlocks, collected + c;
  }

  /** Two consecutive stretches of the traversal make one. */
  lemma Absorb(chain: seq<Block>, env: Env, start: set<string>, mid: set<string>, after: set<string>,
               related: seq<Block>, more: seq<Block>, c1: set<string>, c2: set<string>)
    requires start <= mid <= after
    requires Accounted(chain, env, related, c1, start, mid) && Accounted(chain, env, more, c2, mid, after)
    ensures Accounted(chain, env, related + more, c1 + c2, start, after)
  {
    BlocksOfUnion(chain, c1, c2);
    ClosedGrows(chain, env, c1, mid, after);
    ClosedUnion(chain, env, c1, c2, after);
    var d1, d2 := mid - start - c1, after - mid - c2;
    assert after - start - (c1 + c2) == d1 + d2;
    if d1 != {} {
      RaisesGrows(chain, env, d1, d1 + d2);
    } else if d2 != {} {
      RaisesGrows(chain, env, d2, d1 + d2);
    }
    DroppedJoin(chain, env, d1, d2, mid, after, d1 + d2);
  }

  lemma ClosedUnion(chain: seq<Block>, env: Env, a: set<string>, b: set<string>, v: set<string>)
    requires Closed(chain, env, a, v) && Closed(chain, env, b, v)
    ensures Closed(chain, env, a + b, v)
  {
    forall x | x in a + b ensures ParentsIn(chain, env, x, v) {
      if x in a { assert ParentsIn(chain, env, x, v); }
    }
  }

  /**
   * A stretch whose bridged traversal, started from the bridge of `bridgedFrom`,
   * raised: the ids it visited stay visited, unaccounted for.
   */
  lemma Abandon(chain: seq<Block>, env: Env, start: set<string>, mid: set<string>, after: set<string>,
                related: seq<Block>, collected: set<string>, bridgedFrom: string)
    requires start <= mid <= after
    requires Accounted(chain, env, related, collected, start, mid)
    requires bridgedFrom in mid && TookBridge(chain, env, bridgedFrom)
    requires RaisesFrom(chain, env, BridgeTarget(env, bridgedFrom).value, after - mid)
    requires AllReachable(chain, env, BridgeTarget(env, bridgedFrom).value, after - mid)
    ensures Accounted(chain, env, related, collected, start, after)
  {
    ClosedGrows(chain, env, collected, mid, after);
    RaisesFromGrows(chain, env, BridgeTarget(env, bridgedFrom).value, after - mid, after - start - collected);
    forall y | y in after - mid
      ensures exists x :: x in after && TookBridge(chain, env, x) && Reachable(chain, env, BridgeTarget(env, x).value, y, true)
    {
      assert Reachable(chain, env, BridgeTarget(env, bridgedFrom).value, y, true);
    }
    DroppedJoin(chain, env, mid - start - collected, after - mid, mid, after, after - start - collected);
  }

  /** The batch's own blocks first, then the rest; it is closed once its parents are visited. */
  lemma CurrentAccounted(chain: seq<Block>, env: Env, current: string, visited: set<string>, after: set<string>,
                         more: seq<Block>, c: set<string>)
    requires current !in visited && visited + {current} <= after
    requires Accounted(chain, env, more, c, visited + {current}, after)
    requires ParentsIn(chain, env, current, after)
    ensures Accounted(chain, env, BlocksOf(chain, {current}) + more, {current} + c, visited, after)
  {
    BlocksOfUnion(chain, {current}, c);
    assert Closed(chain, env, {current}, after);
    ClosedUnion(chain, env, {current}, c, after);
    assert after - visited - ({current} + c) == after - (visited + {current}) - c;
  }
}
