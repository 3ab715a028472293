/**
 * The mock ledger of blockchain/services.py: an in-memory, append-only list
 * of hash-chained block records plus an off-chain map from a dossier's hash
 * to the dossier itself.
 *
 * SHA-256 (`hashlib.sha256(text.encode()).hexdigest()`) and
 * `json.dumps(payload, sort_keys=True)` are library calls; they are given to
 * the service as the two functions of a `Crypto` value and nothing is
 * assumed about them (in particular no collision resistance).
 */
module Ledger {
  import opened JsonValue

  datatype Crypto = Crypto(sha256: string -> string, dumpsSorted: Json -> string)

  /** previous_hash of the first block: 32 zeros. */
  const GenesisPreviousHash: string := "00000000000000000000000000000000"

  /** The simulated wallet of each recognised role. */
  const Wallets: map<string, string> := map[
    "Producer" := "0xProducerAddressA1B2...",
    "Transporter" := "0xTransporterAddressC3D4...",
    "Retailer" := "0xRetailerAddressE5F6..."
  ]

  const UnknownSigner: string := "0xUnknown"

  /**
   * One block record. `content` is the copy of the off-chain payload the
   * service stores in the block (key "content"); `dataContent` is the key
   * "data_content" that the genealogy resolver reads (None: key absent);
   * `visualIndex` is the key "visual_index" the explorer adds for display
   * (None: key absent).
   */
  datatype Block = Block(
    blockIndex: int,
    batchId: string,
    dataHash: string,
    previousHash: string,
    signer: string,
    role: string,
    eventType: string,
    timestamp: string,
    blockHash: string,
    content: Json,
    dataContent: Option<Json>,
    visualIndex: Option<int>)

  /** What sign_and_submit_block returns to its caller. */
  datatype Receipt = Receipt(status: string, txHash: string, signer: string, blockData: Block)

  /** `wallets.get(user_role, '0xUnknown')`. */
  function SignerFor(role: string): (signer: string)
    ensures role == "Producer" ==> signer == "0xProducerAddressA1B2..."
    ensures role == "Transporter" ==> signer == "0xTransporterAddressC3D4..."
    ensures role == "Retailer" ==> signer == "0xRetailerAddressE5F6..."
    ensures signer == UnknownSigner <==> role !in {"Producer", "Transporter", "Retailer"}
  {
    if role in Wallets then Wallets[role] else UnknownSigner
  }

  /** The text that is hashed to seal a block: the five fields, concatenated. */
  function SealText(batchId: string, dataHash: string, previousHash: string, signer: string, eventType: string): string {
    batchId + dataHash + previousHash + signer + eventType
  }

  /** The hash of the key-sorted serialisation of a dossier. */
  function DossierHash(crypto: Crypto, payload: Json): string {
    crypto.sha256(crypto.dumpsSorted(payload))
  }

  /** previous_hash for a block appended to `chain`. */
  function TailHash(chain: seq<Block>): string {
    if chain == [] then GenesisPreviousHash else chain[|chain| - 1].blockHash
  }

  /** The block sign_and_submit_block appends to `chain`. */
  function Minted(crypto: Crypto, chain: seq<Block>, storage: map<string, Json>,
                  role: string, batchId: string, dataHash: string, eventType: string, now: string): Block
  {
    var signer := SignerFor(role);
    var previousHash := TailHash(chain);
    Block(
      |chain| + 1, batchId, dataHash, previousHash, signer, role, eventType, now,
      crypto.sha256(SealText(batchId, dataHash, previousHash, signer, eventType)),
      if dataHash in storage then storage[dataHash] else EmptyObject,
      None, None)
  }

  /** Every block but the first points at its predecessor's hash; the first at the sentinel. */
  ghost predicate Linked(chain: seq<Block>) {
    && (|chain| > 0 ==> chain[0].previousHash == GenesisPreviousHash)
    && forall i :: 0 < i < |chain| ==> chain[i].previousHash == chain[i - 1].blockHash
  }

  /** block_index runs 1, 2, 3, ... in list order. */
  ghost predicate Indexed(chain: seq<Block>) {
    forall i :: 0 <= i < |chain| ==> chain[i].blockIndex == i + 1
  }

  /** Each block's hash and signer can be recomputed from its other fields. */
  ghost predicate Sealed(crypto: Crypto, b: Block) {
    && b.signer == SignerFor(b.role)
    && b.blockHash == crypto.sha256(SealText(b.batchId, b.dataHash, b.previousHash, b.signer, b.eventType))
  }

  /** The service never writes "data_content" or "visual_index". */
  ghost predicate MockShaped(b: Block) {
    b.dataContent == None && b.visualIndex == None
  }

  ghost predicate ValidChain(crypto: Crypto, chain: seq<Block>) {
    && Linked(chain)
    && Indexed(chain)
    && forall i :: 0 <= i < |chain| ==> Sealed(crypto, chain[i]) && MockShaped(chain[i])
  }

  /** Appending the minted block keeps the chain valid: the chain-link invariant. */
  lemma {:induction false} MintKeepsChainValid(crypto: Crypto, chain: seq<Block>, storage: map<string, Json>,
                                              role: string, batchId: string, dataHash: string, eventType: string, now: string)
    requires ValidChain(crypto, chain)
    ensures ValidChain(crypto, chain + [Minted(crypto, chain, storage, role, batchId, dataHash, eventType, now)])
  {
    var b := Minted(crypto, chain, storage, role, batchId, dataHash, eventType, now);
    var c := chain + [b];
    forall i | 0 < i < |c| ensures c[i].previousHash == c[i - 1].blockHash {
      if i < |chain| { assert c[i] == chain[i] && c[i - 1] == chain[i - 1]; }
    }
  }

  /**
   * The hash depends only on batch id, data hash, tail, signer and event type:
   * the timestamp, the off-chain storage and which role maps to the signer do
   * not enter it.
   */
  lemma SameSealSameHash(crypto: Crypto, chain: seq<Block>, s1: map<string, Json>, s2: map<string, Json>,
                         role1: string, role2: string, batchId: string, dataHash: string, eventType: string,
                         now1: string, now2: string)
    requires SignerFor(role1) == SignerFor(role2)
    ensures Minted(crypto, chain, s1, role1, batchId, dataHash, eventType, now1).blockHash
         == Minted(crypto, chain, s2, role2, batchId, dataHash, eventType, now2).blockHash
  {
  }

  /** Every prefix of a valid chain is valid, and it ends in the hash its next block links to. */
  lemma {:induction false} ValidChainPrefix(crypto: Crypto, chain: seq<Block>, k: nat)
    requires ValidChain(crypto, chain) && k <= |chain|
    ensures ValidChain(crypto, chain[..k])
    ensures k > 0 ==> TailHash(chain[..k]) == chain[k - 1].blockHash
  {
  }

  class BlockchainService {
    const crypto: Crypto
    /** `self.chain` */
    var chain: seq<Block>
    /** `self.off_chain_storage` */
    var offChainStorage: map<string, Json>

    ghost predicate Valid()
      reads this
    {
      ValidChain(crypto, chain)
    }

    constructor (crypto: Crypto)
      ensures Valid()
      ensures this.crypto == crypto && chain == [] && offChainStorage == map[]
    {
      this.crypto := crypto;
      chain := [];
      offChainStorage := map[];
    }

    /** generate_dossier_hash: hash the key-sorted dossier and keep it off-chain under that hash. */
    method GenerateDossierHash(dataDict: Json) returns (dataHash: string)
      requires Valid()
      modifies this
      ensures Valid()
      ensures dataHash == DossierHash(crypto, dataDict)
      ensures offChainStorage == old(offChainStorage)[dataHash := dataDict]
      ensures chain == old(chain)
    {
      var dossierString := crypto.dumpsSorted(dataDict);
      dataHash := crypto.sha256(dossierString);
      offChainStorage := offChainStorage[dataHash := dataDict];
    }

    /** sign_and_submit_block: resolve the signer, link to the tail, seal and append. */
    method SignAndSubmitBlock(userRole: string, batchId: string, dataHash: string, eventType: string, now: string)
      returns (receipt: Receipt)
      requires Valid()
      modifies this
      ensures Valid()
      ensures chain == old(chain) + [receipt.blockData]
      ensures offChainStorage == old(offChainStorage)
      ensures receipt.blockData.previousHash
           == if old(chain) == [] then GenesisPreviousHash else old(chain)[|old(chain)| - 1].blockHash
      ensures receipt.blockData.blockIndex == |old(chain)| + 1
      ensures receipt.blockData.signer == SignerFor(userRole)
      ensures receipt.blockData.blockHash
           == crypto.sha256(SealText(batchId, dataHash, receipt.blockData.previousHash, SignerFor(userRole), eventType))
      ensures receipt.blockData.content
           == if dataHash in old(offChainStorage) then old(offChainStorage)[dataHash] else EmptyObject
      ensures receipt.blockData == Minted(crypto, old(chain), old(offChainStorage), userRole, batchId, dataHash, eventType, now)
      ensures receipt == Receipt("Success", receipt.blockData.blockHash, receipt.blockData.signer, receipt.blockData)
    {
      var signer := if userRole in Wallets then Wallets[userRole] else UnknownSigner;
      var previousHash := GenesisPreviousHash;
      if chain != [] {
        previousHash := chain[|chain| - 1].blockHash;
      }
      var blockHash := crypto.sha256(batchId + dataHash + previousHash + signer + eventType);
      var originalData := if dataHash in offChainStorage then offChainStorage[dataHash] else EmptyObject;
      var newBlock := Block(|chain| + 1, batchId, dataHash, previousHash, signer, userRole, eventType, now,
                            blockHash, originalData, None, None);
      MintKeepsChainValid(crypto, chain, offChainStorage, userRole, batchId, dataHash, eventType, now);
      chain := chain + [newBlock];
      receipt := Receipt("Success", blockHash, signer, newBlock);
    }

    /** get_chain: the ledger as it stands, which is always a valid chain. */
    function GetChain(): (c: seq<Block>)
      reads this
      requires Valid()
      ensures ValidChain(crypto, c)
      ensures |c| > 0 ==> c[0].previousHash == GenesisPreviousHash && c[0].blockIndex == 1
    {
      chain
    }
  }
}
