/** The tables shared by all tasks, keyed as the schema keys them. */
module Database {
  datatype Option<+T> = None | Some(value: T)

  /** A 32-byte hash, read as a big-endian number: the byte order is the number order. */
  type Hash = nat
  type TxId = Hash
  type Address = string
  type Script = seq<nat>

  datatype Outpoint = Outpoint(tx: TxId, index: int)
  datatype InputId = InputId(tx: TxId, index: int)

  datatype Input = Input(previous: Outpoint, script: Option<Script>, amount: Option<int>)
  datatype Output = Output(amount: Option<int>, script: Option<Script>, address: Option<Address>)
  datatype Block = Block(timestamp: int, blueScore: int)

  /** The four tables that pruning and the balance sums share. A NULL block hash marks an imported transaction. */
  datatype Store = Store(
    transactions: map<TxId, Option<int>>,
    inputs: map<InputId, Input>,
    outputs: map<Outpoint, Output>,
    acceptances: map<TxId, Option<Hash>>)

  class Db {
    var transactions: map<TxId, Option<int>>            // block_time by transaction_id
    var inputs: map<InputId, Input>
    var outputs: map<Outpoint, Output>
    var acceptances: map<TxId, Option<Hash>>            // rows with a transaction_id
    var chainBlocks: multiset<Hash>                     // acceptance rows without a transaction_id
    var blocks: map<Hash, Block>
    var blockParents: set<(Hash, Hash)>
    var blocksTransactions: set<(Hash, TxId)>
    var addressesTransactions: set<(Address, TxId)>
    var balances: map<Address, int>

    constructor ()
      ensures Tables() == Store(map[], map[], map[], map[])
      ensures chainBlocks == multiset{} && blocks == map[] && blockParents == {} && blocksTransactions == {}
      ensures addressesTransactions == {} && balances == map[]
    {
      transactions, inputs, outputs, acceptances := map[], map[], map[], map[];
      chainBlocks, blocks, blockParents, blocksTransactions := multiset{}, map[], {}, {};
      addressesTransactions, balances := {}, map[];
    }

    function Tables(): Store
      reads this
    {
      Store(transactions, inputs, outputs, acceptances)
    }
  }

  predicate Submap<K, V(==)>(a: map<K, V>, b: map<K, V>) {
    forall k :: k in a ==> k in b && a[k] == b[k]
  }

  lemma {:induction false} SubsetSize<T>(a: set<T>, b: set<T>)
    requires a <= b
    ensures |a| <= |b|
  {
    if a != {} {
      var x :| x in a;
      SubsetSize(a - {x}, b - {x});
    }
  }

  lemma MapSize<K, V>(m: map<K, V>)
    ensures |m| == |m.Keys|
  {
  }

  lemma SubmapSize<K, V>(smaller: map<K, V>, larger: map<K, V>)
    requires smaller.Keys <= larger.Keys
    ensures |smaller| <= |larger|
  {
    SubsetSize(smaller.Keys, larger.Keys);
    MapSize(smaller);
    MapSize(larger);
  }
}
