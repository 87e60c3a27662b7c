/** A completed import of the UTXO set is where the runs of the ledger start. */
module ImportedLedger {
  import opened Database
  import opened Sums
  import opened Balances
  import opened UtxoImport
  import opened Windows
  import opened Chain
  import opened Ledger
  import ChainIndex
  import Checkpoint
  import CheckpointSystem
  import Contents
  import GatedLedger
  import LedgerSteps

  const ALL: Fields := Fields(true, true, true)

  /** The entries as a table. */
  function EntriesOf(utxos: seq<Utxo>): map<Outpoint, Output> {
    if utxos == [] then map[] else
      var row := Row(ALL, utxos[|utxos| - 1]);
      EntriesOf(utxos[..|utxos| - 1])[row.0 := row.1]
  }

  /** No outpoint is sent twice. */
  predicate DistinctOutpoints(utxos: seq<Utxo>) {
    forall i, j :: 0 <= i < j < |utxos| ==> Row(ALL, utxos[i]).0 != Row(ALL, utxos[j]).0
  }

  lemma {:induction false} EntriesAre(utxos: seq<Utxo>)
    requires DistinctOutpoints(utxos)
    ensures forall u :: u in utxos ==> Row(ALL, u).0 in EntriesOf(utxos) && EntriesOf(utxos)[Row(ALL, u).0] == Row(ALL, u).1
    ensures forall o :: o in EntriesOf(utxos) ==> exists u :: u in utxos && Row(ALL, u).0 == o
  {
    if utxos != [] {
      var last := |utxos| - 1;
      EntriesAre(utxos[..last]);
      assert utxos == utxos[..last] + [utxos[last]];
      forall u | u in utxos[..last] ensures Row(ALL, u).0 != Row(ALL, utxos[last]).0 {
        var i :| 0 <= i < last && utxos[i] == u;
      }
    }
  }

  lemma UtxoSumMore(u: map<Outpoint, Output>, o: Outpoint, row: Output, a: Address)
    requires o !in u
    ensures UtxoSum(u[o := row], a) == UtxoSum(u, a) + if Pays(row, a) then Amount(row) else 0
  {
    if Pays(row, a) {
      assert PaidTo(u[o := row], a) == PaidTo(u, a)[o := Amount(row)];
      SumAdd(PaidTo(u, a), o, Amount(row));
    } else {
      assert PaidTo(u[o := row], a) == PaidTo(u, a);
    }
  }

  lemma NotYetEntered(utxos: seq<Utxo>)
    requires DistinctOutpoints(utxos) && utxos != []
    ensures Row(ALL, utxos[|utxos| - 1]).0 !in EntriesOf(utxos[..|utxos| - 1])
  {
    var last := |utxos| - 1;
    EntriesAre(utxos[..last]);
  }

  /** The entries are the UTXO set: one for each of its outpoints, whose index and amount fit their columns. */
  ghost predicate Describes(utxos: seq<Utxo>, base: map<Outpoint, Output>) {
    && (forall u :: u in utxos ==> u.index < 0x8000 && u.amount <= I64_MAX)
    && (forall i, j :: 0 <= i < j < |utxos| ==> utxos[i].tx != utxos[j].tx || utxos[i].index != utxos[j].index)
    && (forall u :: u in utxos ==>
          Outpoint(u.tx, u.index) in base && base[Outpoint(u.tx, u.index)] == Output(Some(u.amount), Some(u.script), u.address))
    && (forall o :: o in base ==> exists u :: u in utxos && o == Outpoint(u.tx, u.index))
  }

  lemma DescribedRow(utxos: seq<Utxo>, base: map<Outpoint, Output>, u: Utxo)
    requires Describes(utxos, base) && u in utxos
    ensures Row(ALL, u).0 == Outpoint(u.tx, u.index) && Row(ALL, u).0 in base && Row(ALL, u).1 == base[Row(ALL, u).0]
  {
  }

  lemma DescribedAreDistinct(utxos: seq<Utxo>, base: map<Outpoint, Output>)
    requires Describes(utxos, base)
    ensures DistinctOutpoints(utxos)
  {
    forall i, j | 0 <= i < j < |utxos| ensures Row(ALL, utxos[i]).0 != Row(ALL, utxos[j]).0 {
      DescribedRow(utxos, base, utxos[i]);
      DescribedRow(utxos, base, utxos[j]);
    }
  }

  lemma DescribedEntries(utxos: seq<Utxo>, base: map<Outpoint, Output>)
    requires Describes(utxos, base)
    ensures DistinctOutpoints(utxos) && EntriesOf(utxos) == base
  {
    DescribedAreDistinct(utxos, base);
    EntriesAre(utxos);
    var entries := EntriesOf(utxos);
    forall o | o in base ensures o in entries {
      var u :| u in utxos && o == Outpoint(u.tx, u.index);
      DescribedRow(utxos, base, u);
    }
    forall o | o in entries ensures o in base && entries[o] == base[o] {
      var u :| u in utxos && Row(ALL, u).0 == o;
      DescribedRow(utxos, base, u);
    }
  }

  /** Summing the entries one by one gives the sums over the UTXO set. */
  lemma {:induction false} TotalIsUtxoSum(utxos: seq<Utxo>, a: Address)
    requires DistinctOutpoints(utxos)
    ensures Total(ALL, utxos, a) == UtxoSum(EntriesOf(utxos), a)
  {
    if utxos == [] {
      assert PaidTo(EntriesOf([]), a) == map[];
    } else {
      var row := Row(ALL, utxos[|utxos| - 1]);
      TotalIsUtxoSum(utxos[..|utxos| - 1], a);
      NotYetEntered(utxos);
      UtxoSumMore(EntriesOf(utxos[..|utxos| - 1]), row.0, row.1, a);
    }
  }

  lemma ImportedOutputs(w: World, utxos: seq<Utxo>, all: seq<Utxo>, s: Store, s': Store)
    requires w.WellFormed() && forall o :: o in s.outputs ==> w.Genuine(o, s.outputs[o])
    requires DistinctOutpoints(utxos) && EntriesOf(utxos) == w.base
    requires forall u :: u in all ==> u in utxos
    requires Stored(ALL, all, s, s')
    ensures forall o :: o in s'.outputs ==> w.Genuine(o, s'.outputs[o])
  {
    EntriesAre(utxos);
    forall o | o in s'.outputs && o !in s.outputs ensures w.Genuine(o, s'.outputs[o]) {
      var u :| u in all && Row(ALL, u) == (o, s'.outputs[o]);
      assert o in w.base && s'.outputs[o] == w.base[o];
    }
  }

  lemma ImportedBase(w: World, utxos: seq<Utxo>, s': Store)
    requires w.WellFormed() && forall o :: o in s'.outputs ==> w.Genuine(o, s'.outputs[o])
    requires DistinctOutpoints(utxos) && EntriesOf(utxos) == w.base && AllStored(ALL, utxos, s')
    ensures forall o :: o in w.base ==> o in s'.outputs && s'.outputs[o] == w.base[o] && o.tx in s'.acceptances
  {
    EntriesAre(utxos);
    forall o | o in w.base ensures o in s'.outputs && s'.outputs[o] == w.base[o] && o.tx in s'.acceptances {
      var u :| u in utxos && Row(ALL, u).0 == o;
      assert w.Genuine(o, s'.outputs[o]) && w.Genuine(o, w.base[o]);
    }
  }

  lemma ImportedAcceptances(w: World, utxos: seq<Utxo>, all: seq<Utxo>, s: Store, s': Store)
    requires w.WellFormed() && s.acceptances == map[]
    requires DistinctOutpoints(utxos) && EntriesOf(utxos) == w.base
    requires forall u :: u in all ==> u in utxos
    requires Stored(ALL, all, s, s')
    ensures forall t :: t in s'.acceptances ==> t in w.ancient && s'.acceptances[t] == None
  {
    EntriesAre(utxos);
    forall t | t in s'.acceptances ensures t in w.ancient {
      var u :| u in all && u.tx == t;
      assert Row(ALL, u).0 in w.base;
    }
  }

  /** What a completed import whose final write was not cut short leaves, starting from tables without acceptances, is an initial state of the ledger. */
  lemma ImportIsInitial(w: World, attempts: seq<Attempt>, utxos: seq<Utxo>, rejected: Option<nat>, written: set<Address>, s: Store, balances: map<Address, int>,
                        s': Store, balances': map<Address, int>, blocks: map<Hash, Block>, saved: int)
    requires w.WellFormed() && GenuineRows(w, s, blocks) && s.acceptances == map[]
    requires Describes(utxos, w.base)
    requires forall u :: u in AllReceived(attempts) ==> u in utxos
    requires Stored(ALL, AllReceived(attempts), s, s') && AllStored(ALL, utxos, s')
    requires Finished(ALL, utxos, rejected, written, Emptied(ALL, attempts, balances), balances') && !CutShort(ALL, utxos, rejected)
    requires (exists t :: t in attempts && t.truncated) || balances == map[]
    ensures Init(w, Ledger(s', blocks, balances', saved, [], []))
  {
    var all := AllReceived(attempts);
    DescribedEntries(utxos, w.base);
    ImportedOutputs(w, utxos, all, s, s');
    ImportedBase(w, utxos, s');
    ImportedAcceptances(w, utxos, all, s, s');
    BalancesAreTotalsIff(ALL, attempts, utxos, rejected, written, balances, balances');
    forall a ensures BalanceOf(balances', a) == UtxoSum(w.base, a) {
      TotalIsUtxoSum(utxos, a);
    }
  }

  // ---- The tasks start ----

  /** No task has done anything yet, and the chain processor starts at the block of the import. */
  ghost predicate NotStarted(n: CheckpointSystem.Node, s: CheckpointSystem.System) {
    && s.delivered == [] && s.committed == 0 && s.txsOutbox == [] && s.chainOutbox == None && s.queue == [] && s.reached == {}
    && s.gate.candidate == None && s.gate.txs == {} && s.gate.blocks == {}
    && s.startHash == n.origin && s.chain == [] && s.pruned == {} && s.chainBlocks == multiset{}
  }

  lemma ImportedRowsAreIndexed(c: CheckpointSystem.Setup, n: CheckpointSystem.Node, s: CheckpointSystem.System)
    requires NotStarted(n, s) && n.imports == s.store.acceptances.Keys
    requires forall t :: t in s.store.acceptances ==> s.store.acceptances[t] == None
    ensures ChainIndex.Tracks(c.chain, s.Moment(), n.origin, n.imports, n.accepts)
  {
  }

  lemma ImportStarts(w: World, c: CheckpointSystem.Setup, n: CheckpointSystem.Node, s: CheckpointSystem.System, blocks: map<Hash, Block>)
    requires NotStarted(n, s) && n.imports == s.store.acceptances.Keys && w.body == n.body && GenuineRows(w, s.store, blocks)
    requires forall t :: t in s.store.acceptances ==> s.store.acceptances[t] == None
    ensures CheckpointSystem.Starts(n, c, s)
  {
    ImportedRowsAreIndexed(c, n, s);
    LedgerSteps.ContentIsGenuine(w, s.store, blocks, s.Content());
  }

  /** What a completed import whose final write was not cut short leaves is where the tasks and the ledger behind the gate begin. */
  lemma ImportBegins(w: World, c: CheckpointSystem.Setup, n: CheckpointSystem.Node, attempts: seq<Attempt>, utxos: seq<Utxo>,
                     rejected: Option<nat>, written: set<Address>, before: Store, balances: map<Address, int>,
                     s: CheckpointSystem.System, balances': map<Address, int>, blocks: map<Hash, Block>, saved: int)
    requires w.WellFormed() && GenuineRows(w, before, blocks) && before.acceptances == map[]
    requires Describes(utxos, w.base)
    requires forall u :: u in AllReceived(attempts) ==> u in utxos
    requires Stored(ALL, AllReceived(attempts), before, s.store) && AllStored(ALL, utxos, s.store)
    requires Finished(ALL, utxos, rejected, written, Emptied(ALL, attempts, balances), balances') && !CutShort(ALL, utxos, rejected)
    requires (exists t :: t in attempts && t.truncated) || balances == map[]
    requires NotStarted(n, s) && n.imports == s.store.acceptances.Keys && w.body == n.body
    ensures GatedLedger.Begins(w, n, c, GatedLedger.State(s, Ledger(s.store, blocks, balances', saved, [], [])))
  {
    var l := Ledger(s.store, blocks, balances', saved, [], []);
    ImportIsInitial(w, attempts, utxos, rejected, written, before, balances, s.store, balances', blocks, saved);
    DescribedEntries(utxos, w.base);
    ImportedAcceptances(w, utxos, AllReceived(attempts), before, s.store);
    ImportStarts(w, c, n, s, blocks);
    GatedLedger.ImportIsJoint(w, n, s, l);
  }
}
