/**
 What every holder's balance and every supply is, read off the Transfers themselves: an LP, IOU or pool
 balance is what the holder received minus what it sent, and a supply is what was minted minus what was
 burned (handlers.go: handleTransfer; db.go: adjustBalance; "Events / Transfer" of EIP-20).
 */
module Holders {
  import opened Accounting
  import opened Addresses
  import opened Delivery
  import opened Effects
  import opened Frames
  import opened Kinds
  import opened Machine
  import opened Options
  import opened Sums
  import opened Tables

  /** The three tables of holder balances. */
  datatype Book = LpBook | IouBook | PoolBook

  function Accounts(t: Ledger, book: Book): map<Id, map<Addr, int>> {
    match book
    case LpBook => t.lpBalances
    case IouBook => t.iouBalances
    case PoolBook => t.poolBalances
  }

  function Supply(t: Ledger, book: Book, id: Id): int {
    match book
    case LpBook => if id in t.reserves then t.reserves[id].lpSupply else 0
    case IouBook => if id in t.iouTokens then t.iouTokens[id].totalSupply else 0
    case PoolBook => if id in t.pools then t.pools[id].lpSupply else 0
  }

  /** The contracts whose Transfers a table records. */
  predicate Records(book: Book, k: Kind) {
    match book
    case LpBook => k.BaseReserveKind? || k.MetaReserveKind?
    case IouBook => k.IouKind?
    case PoolBook => k.CurveKind?
  }

  // --- what a Transfer says ---

  /** What a Transfer moves to a holder, less what it moves from it. The zero address holds nothing: a mint
      only credits and a burn only debits, and a Transfer from zero to zero is a mint to it. */
  function Received(e: Event, holder: Addr): int {
    if !e.Transfer? || e.value.None? then 0
    else if e.from == ZERO_ADDRESS && e.to == ZERO_ADDRESS then (if holder == ZERO_ADDRESS then e.value.value else 0)
    else if holder == ZERO_ADDRESS then 0
    else (if e.to == holder then e.value.value else 0) - (if e.from == holder then e.value.value else 0)
  }

  /** What a Transfer mints, less what it burns. */
  function Minted(e: Event): int {
    if !e.Transfer? || e.value.None? then 0
    else if e.from == ZERO_ADDRESS then e.value.value
    else if e.to == ZERO_ADDRESS then -e.value.value
    else 0
  }

  /** A log's share in one entry of a table. */
  function ReceivedIn(truth: Truth, book: Book, id: Id, holder: Addr): Log -> int {
    (log: Log) => if Records(book, truth(log.address)) && Emitter(log) == id then Received(log.event, holder) else 0
  }

  function MintedIn(truth: Truth, book: Book, id: Id): Log -> int {
    (log: Log) => if Records(book, truth(log.address)) && Emitter(log) == id then Minted(log.event) else 0
  }

  // --- one log ---

  lemma AddedBalance(table: map<Id, map<Addr, int>>, id: Id, holder: Addr, delta: int, other: Id, h: Addr)
    ensures Get(Rows(AddBalance(table, id, holder, delta), other), h) ==
            Get(Rows(table, other), h) + (if other == id && h == holder then delta else 0)
  {
  }

  /** The balances after a Transfer, entry by entry. */
  lemma MovedBalance(table: map<Id, map<Addr, int>>, id: Id, from: Addr, to: Addr, v: int, other: Id, h: Addr)
    ensures Get(Rows(MoveBalances(table, id, from, to, v), other), h) ==
            Get(Rows(table, other), h) + (if other == id then Received(Transfer(from, to, Some(v)), h) else 0)
  {
    hide AddBalance, Rows, Get;
    if from == ZERO_ADDRESS {
      AddedBalance(table, id, to, v, other, h);
    } else {
      AddedBalance(table, id, from, -v, other, h);
      AddedBalance(AddBalance(table, id, from, -v), id, to, v, other, h);
    }
  }

  lemma BookFrame(t: Ledger, log: Log, k: Kind, book: Book)
    requires Apply(t, log, k).Some?
    ensures Accounts(Apply(t, log, k).value, book) ==
            if Records(book, k) && log.event.Transfer? && log.event.value.Some?
            then MoveBalances(Accounts(t, book), Emitter(log), log.event.from, log.event.to, log.event.value.value)
            else Accounts(t, book)
  {
    hide Apply, MoveBalances, ApplyReserve;
    match book
    case LpBook => LpBalancesFrame(t, log, k);
    case IouBook => IouTablesFrame(t, log, k);
    case PoolBook => PoolTablesFrame(t, log, k);
  }

  lemma BalanceStep(t: Ledger, log: Log, truth: Truth, book: Book, id: Id, holder: Addr)
    requires Apply(t, log, truth(log.address)).Some?
    ensures Get(Rows(Accounts(Apply(t, log, truth(log.address)).value, book), id), holder) ==
            Get(Rows(Accounts(t, book), id), holder) + ReceivedIn(truth, book, id, holder)(log)
  {
    hide Apply, MoveBalances, Accounts, Rows, Get, Records;
    var k := truth(log.address);
    BookFrame(t, log, k, book);
    if Records(book, k) && log.event.Transfer? && log.event.value.Some? {
      MovedBalance(Accounts(t, book), Emitter(log), log.event.from, log.event.to, log.event.value.value, id, holder);
    }
  }

  lemma SupplyStep(t: Ledger, log: Log, truth: Truth, book: Book, id: Id)
    requires Apply(t, log, truth(log.address)).Some?
    ensures Supply(Apply(t, log, truth(log.address)).value, book, id) ==
            Supply(t, book, id) + MintedIn(truth, book, id)(log)
  {
    hide Apply;
    var k := truth(log.address);
    match book
    case LpBook => ReservesFrame(t, log, k); assert LpSupply(t.reserves, id) == Supply(t, book, id);
    case IouBook => IouTablesFrame(t, log, k); assert IouSupply(t.iouTokens, id) == Supply(t, book, id);
    case PoolBook => PoolTablesFrame(t, log, k); assert PoolSupply(t.pools, id) == Supply(t, book, id);
  }

  // --- whole runs ---

  /** Every balance is the sum of what the committed Transfers moved to the holder, less what they moved from it. */
  lemma {:induction false} BalancesAreReceipts(truth: Truth, logs: seq<Log>, book: Book, id: Id, holder: Addr)
    requires Replay(truth, EMPTY_LEDGER, logs).Some?
    ensures Get(Rows(Accounts(Replay(truth, EMPTY_LEDGER, logs).value, book), id), holder) ==
            SumOver(logs, ReceivedIn(truth, book, id, holder))
  {
    hide Apply, ReceivedIn;
    if logs != [] {
      var n := |logs| - 1;
      BalancesAreReceipts(truth, logs[..n], book, id, holder);
      BalanceStep(Replay(truth, EMPTY_LEDGER, logs[..n]).value, logs[n], truth, book, id, holder);
    }
  }

  /** Every supply is the sum of what the committed Transfers minted, less what they burned. */
  lemma {:induction false} SuppliesAreMints(truth: Truth, logs: seq<Log>, book: Book, id: Id)
    requires Replay(truth, EMPTY_LEDGER, logs).Some?
    ensures Supply(Replay(truth, EMPTY_LEDGER, logs).value, book, id) == SumOver(logs, MintedIn(truth, book, id))
  {
    hide Apply, MintedIn;
    if logs != [] {
      var n := |logs| - 1;
      SuppliesAreMints(truth, logs[..n], book, id);
      SupplyStep(Replay(truth, EMPTY_LEDGER, logs[..n]).value, logs[n], truth, book, id);
    }
  }

  /** Both at the end of any run with duplicates, failures and restarts. */
  lemma RunBalancesAreReceipts(truth: Truth, cfg: Config, steps: seq<Step>, book: Book, id: Id, holder: Addr)
    requires AgreesConfig(truth, cfg) && AllAgree(truth, steps)
    ensures var t, logs := Run(Initial(cfg), cfg, steps).ledger, Effective(Initial(cfg), cfg, steps);
            && Get(Rows(Accounts(t, book), id), holder) == SumOver(logs, ReceivedIn(truth, book, id, holder))
            && Supply(t, book, id) == SumOver(logs, MintedIn(truth, book, id))
  {
    hide Agrees, AgreesConfig, Run, Effective, Replay, Initial, DistinctIds, Ids, ReceivedIn, MintedIn,
         Accounts, Supply;
    ExactlyOnce(truth, cfg, steps);
    BalancesAreReceipts(truth, Effective(Initial(cfg), cfg, steps), book, id, holder);
    SuppliesAreMints(truth, Effective(Initial(cfg), cfg, steps), book, id);
  }
}
