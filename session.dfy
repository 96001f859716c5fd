/** The account loop of `main`: for each of `n` generated accounts, fund it
    from the main account, forward 0 from it to the first collection address,
    then sweep its balance minus the reserved fee to the second one. An error
    in any step abandons only that account. Successful accounts are collected
    and, when a chat id is set, delivered in batches of `batchSize`; the
    remainder is delivered after the loop.

    The outside world is an oracle per account: the key pair Account.create()
    yields, the endpoint's answers for each attempt of each transfer, the
    balance read before the sweep, and whether a notification send succeeds. */
module Session {
  import opened Wrappers
  import opened Transfer
  import Failover

  /** The funding amount, 0.00001 ether, in wei. */
  const FundWei: nat := 10_000_000_000_000
  /** The fee the sweep leaves behind: the default gas limit at the fixed price. */
  const SweepReserve: nat := DefaultGas * GasPrice

  /** The deployment's fixed settings, passed in rather than read from a global. */
  datatype Config = Config(
    rpcUrls: seq<Failover.Url>,
    address1: Address,
    address2: Address,
    batchSize: nat,
    chainId: nat,
    checksum: Checksum)

  /** An address with its private key. */
  datatype Account = Account(address: Address, key: Key)

  /** What the outside world answers while one generated account is processed. */
  datatype AccountOracle = AccountOracle(
    account: Account,
    fund: nat -> AttemptEnv,
    forward: nat -> AttemptEnv,
    balance: Option<nat>,
    sweep: nat -> AttemptEnv,
    notifyOk: bool)

  /** One send_transaction call of the pipeline with what it did. */
  datatype Sent = Sent(req: Request, run: SendRun)

  /** The outcome for one account: whether it counts as successful, and the
      transfers it made, in order. */
  datatype PipelineRun = PipelineRun(ok: bool, sends: seq<Sent>)

  function FundRequest(main: Account, acct: Account): Request {
    Request(main.address, acct.address, FundWei, main.key, DefaultGas)
  }

  function ForwardRequest(cfg: Config, acct: Account): Request {
    Request(acct.address, cfg.address1, 0, acct.key, DefaultGas)
  }

  function SweepRequest(cfg: Config, acct: Account, amount: nat): Request {
    Request(acct.address, cfg.address2, amount, acct.key, DefaultGas)
  }

  /** A send_transaction call as the pipeline sees it: a request and the
      endpoint's answers to each attempt, to what the call did. */
  type Sender = (Request, nat -> AttemptEnv) -> SendRun

  /** The decorated send_transaction with this deployment's chain id and checksumming. */
  function DecoratedSend(cfg: Config): Sender {
    (req: Request, env: nat -> AttemptEnv) => Retried(AttemptsOf(cfg.chainId, cfg.checksum, req, env))
  }

  /** Fund, forward, then sweep or skip, for one generated account. */
  function Pipeline(cfg: Config, main: Account, send: Sender, o: AccountOracle): (p: PipelineRun)
    ensures 1 <= |p.sends| <= 3
    ensures forall i :: 0 <= i < |p.sends| - 1 ==> p.sends[i].run.result.Ok?
    // the funding transfer always comes first
    ensures p.sends[0] == Sent(FundRequest(main, o.account), send(FundRequest(main, o.account), o.fund))
  {
    var fundReq := FundRequest(main, o.account);
    var fund := Sent(fundReq, send(fundReq, o.fund));
    if fund.run.result.Err? then PipelineRun(false, [fund])
    else
      var forwardReq := ForwardRequest(cfg, o.account);
      var forward := Sent(forwardReq, send(forwardReq, o.forward));
      if forward.run.result.Err? then PipelineRun(false, [fund, forward])
      else
        match o.balance
        case None => PipelineRun(false, [fund, forward])
        case Some(balance) =>
          var amount := balance - SweepReserve;
          if amount > 0 then
            var sweepReq := SweepRequest(cfg, o.account, amount);
            var sweep := Sent(sweepReq, send(sweepReq, o.sweep));
            PipelineRun(sweep.run.result.Ok?, [fund, forward, sweep])
          else
            PipelineRun(true, [fund, forward])
  }

  /** The forward of 0 to the first collection address is made exactly when
      funding succeeded. */
  lemma PipelineForward(cfg: Config, main: Account, send: Sender, o: AccountOracle)
    ensures var p := Pipeline(cfg, main, send, o);
      |p.sends| >= 2 <==> p.sends[0].run.result.Ok?
    ensures var p := Pipeline(cfg, main, send, o);
      |p.sends| >= 2 ==>
        p.sends[1] == Sent(ForwardRequest(cfg, o.account), send(ForwardRequest(cfg, o.account), o.forward))
  {
  }

  /** The sweep is made exactly when funding and forward succeeded and the
      balance read exceeds the reserve, and it moves the balance minus the reserve. */
  lemma PipelineSweep(cfg: Config, main: Account, send: Sender, o: AccountOracle)
    ensures var p := Pipeline(cfg, main, send, o);
      |p.sends| == 3 <==>
        p.sends[0].run.result.Ok? && p.sends[1].run.result.Ok?
        && o.balance.Some? && o.balance.value > SweepReserve
    ensures var p := Pipeline(cfg, main, send, o);
      |p.sends| == 3 ==>
        o.balance.Some? && o.balance.value > SweepReserve
        && p.sends[2].req == SweepRequest(cfg, o.account, o.balance.value - SweepReserve)
        && p.sends[2].run == send(p.sends[2].req, o.sweep)
  {
  }

  /** An account succeeds when funding and forward succeeded, its balance was
      read, and the sweep, when made, succeeded; an underfunded account skips
      the sweep and still succeeds. */
  lemma PipelineSuccess(cfg: Config, main: Account, send: Sender, o: AccountOracle)
    ensures var p := Pipeline(cfg, main, send, o);
      p.ok <==> |p.sends| >= 2 && o.balance.Some? && p.sends[|p.sends| - 1].run.result.Ok?
    ensures var p := Pipeline(cfg, main, send, o);
      p.ok && |p.sends| == 2 <==>
        |p.sends| >= 2 && p.sends[0].run.result.Ok? && p.sends[1].run.result.Ok?
        && o.balance.Some? && o.balance.value <= SweepReserve
  {
  }

  /** The body of one loop iteration after the account is generated: three
      sends, stopping at the first that raises. */
  method ProcessAccount(cfg: Config, main: Account, o: AccountOracle) returns (p: PipelineRun)
    ensures p == Pipeline(cfg, main, DecoratedSend(cfg), o)
  {
    var fundReq := FundRequest(main, o.account);
    var fund := Send(cfg.chainId, cfg.checksum, fundReq, o.fund);
    if fund.result.Err? {
      return PipelineRun(false, [Sent(fundReq, fund)]);
    }
    var forwardReq := ForwardRequest(cfg, o.account);
    var forward := Send(cfg.chainId, cfg.checksum, forwardReq, o.forward);
    if forward.result.Err? {
      return PipelineRun(false, [Sent(fundReq, fund), Sent(forwardReq, forward)]);
    }
    if o.balance.None? {
      return PipelineRun(false, [Sent(fundReq, fund), Sent(forwardReq, forward)]);
    }
    var amount := o.balance.value - SweepReserve;
    if amount > 0 {
      var sweepReq := SweepRequest(cfg, o.account, amount);
      var sweep := Send(cfg.chainId, cfg.checksum, sweepReq, o.sweep);
      p := PipelineRun(sweep.result.Ok?, [Sent(fundReq, fund), Sent(forwardReq, forward), Sent(sweepReq, sweep)]);
    } else {
      // underfunded: the sweep is skipped and the account still counts
      p := PipelineRun(true, [Sent(fundReq, fund), Sent(forwardReq, forward)]);
    }
  }

  /** The sweep never trips the balance check on its own account: when the
      attempt reads the same balance the sweep amount was computed from,
      value plus fee is exactly that balance. */
  lemma SweepIsAffordable(cfg: Config, acct: Account, balance: nat, env: AttemptEnv)
    requires balance > SweepReserve
    requires env.balance == Some(balance)
    requires cfg.checksum(cfg.address2).Some? && cfg.checksum(acct.address).Some?
    ensures Attempt(cfg.chainId, cfg.checksum, SweepRequest(cfg, acct, balance - SweepReserve), env).result
            != Err(InsufficientBalance)
  {
  }

  // ---------------------------------------------------------------------------
  // The loop, as a function of the oracle

  /** The loop's state: the pending success list, the batches delivered to the
      chat, and every generated account written to the key files. */
  datatype LoopState = LoopState(pending: seq<Account>, delivered: seq<seq<Account>>, saved: seq<Account>)

  /** A chat id is set (the source tests its truthiness). */
  predicate Notifying(chat: Option<string>) {
    chat.Some? && chat.value != []
  }

  /** One iteration: save the account; if its pipeline succeeded, append it and
      deliver the list once it holds at least `batchSize` entries. A failed
      delivery leaves the list as it is. */
  function Iterate(cfg: Config, chat: Option<string>, st: LoopState, o: AccountOracle, ok: bool): (r: LoopState)
    // the account is saved whatever happens
    ensures r.saved == st.saved + [o.account]
    // nothing is lost or repeated: a success is appended, a failure leaves the lists alone
    ensures Flatten(r.delivered) + r.pending == Flatten(st.delivered) + st.pending + (if ok then [o.account] else [])
    // a delivery happens exactly when the success list reaches the batch size with a chat
    // id set and the send succeeds; it hands over the whole list and empties it
    ensures r.delivered != st.delivered <==>
      ok && Notifying(chat) && |st.pending| + 1 >= cfg.batchSize && o.notifyOk
    ensures r.delivered != st.delivered ==>
      r.delivered == st.delivered + [st.pending + [o.account]] && r.pending == []
  {
    FlattenSnoc(st.delivered, st.pending + [o.account]);
    var saved := st.saved + [o.account];
    if !ok then st.(saved := saved)
    else
      var pending := st.pending + [o.account];
      if Notifying(chat) && |pending| >= cfg.batchSize && o.notifyOk then
        LoopState([], st.delivered + [pending], saved)
      else
        LoopState(pending, st.delivered, saved)
  }

  /** Whether each account's pipeline succeeds. */
  function Outcomes(cfg: Config, main: Account, oracle: nat -> AccountOracle): nat -> bool {
    (j: nat) => Pipeline(cfg, main, DecoratedSend(cfg), oracle(j)).ok
  }

  /** The state after the first `i` iterations, given each account's outcome:
      an iteration depends on no other account's outcome. */
  function LoopAfter(cfg: Config, chat: Option<string>, oracle: nat -> AccountOracle, ok: nat -> bool, i: nat): LoopState {
    if i == 0 then LoopState([], [], [])
    else Iterate(cfg, chat, LoopAfter(cfg, chat, oracle, ok, i - 1), oracle(i - 1), ok(i - 1))
  }

  /** After the loop: a non-empty remainder is delivered when a chat id is set. */
  function FinalFlush(chat: Option<string>, st: LoopState, ok: bool): (r: LoopState)
    ensures r.pending == st.pending && r.saved == st.saved
    // with a chat id set and a successful send, the remainder reaches the chat
    ensures Flatten(r.delivered) == Flatten(st.delivered) + (if Notifying(chat) && ok then st.pending else [])
    ensures r.delivered != st.delivered <==> Notifying(chat) && st.pending != [] && ok
    // the remainder goes out as one message after the earlier, unchanged batches
    ensures r.delivered != st.delivered ==> r.delivered == st.delivered + [st.pending]
  {
    FlattenSnoc(st.delivered, st.pending);
    if Notifying(chat) && st.pending != [] && ok then st.(delivered := st.delivered + [st.pending]) else st
  }

  /** The reference definitions: the accounts generated in the first `i`
      iterations, and those among them whose pipeline succeeded, in order. */
  function Generated(oracle: nat -> AccountOracle, i: nat): (g: seq<Account>)
    ensures |g| == i && forall j :: 0 <= j < i ==> g[j] == oracle(j).account
  {
    if i == 0 then [] else Generated(oracle, i - 1) + [oracle(i - 1).account]
  }

  function Successes(oracle: nat -> AccountOracle, ok: nat -> bool, i: nat): seq<Account> {
    if i == 0 then []
    else Successes(oracle, ok, i - 1) + (if ok(i - 1) then [oracle(i - 1).account] else [])
  }

  function Flatten(batches: seq<seq<Account>>): seq<Account> {
    if batches == [] then [] else Flatten(batches[..|batches| - 1]) + batches[|batches| - 1]
  }

  /** Every notification send inside the first `i` iterations succeeds. */
  predicate AllNotified(oracle: nat -> AccountOracle, i: nat) {
    forall j :: 0 <= j < i ==> oracle(j).notifyOk
  }

  // ---------------------------------------------------------------------------
  // Properties of the loop

  /** Exactly one account is generated and saved per iteration, whatever fails. */
  lemma {:induction false} SavesEveryAccount(cfg: Config, chat: Option<string>, oracle: nat -> AccountOracle, ok: nat -> bool, i: nat)
    ensures LoopAfter(cfg, chat, oracle, ok, i).saved == Generated(oracle, i)
  {
    if i > 0 {
      SavesEveryAccount(cfg, chat, oracle, ok, i - 1);
    }
  }

  /** Flattening distributes over appending one batch. */
  lemma FlattenSnoc(batches: seq<seq<Account>>, b: seq<Account>)
    ensures Flatten(batches + [b]) == Flatten(batches) + b
  {
    assert (batches + [b])[..|batches|] == batches;
  }

  /** Nothing is lost or repeated: the delivered batches followed by the
      pending list are exactly the successful accounts, in order. A failed
      delivery keeps its accounts pending for the next one. */
  lemma {:induction false} DeliveredThenPendingAreSuccesses(cfg: Config, chat: Option<string>, oracle: nat -> AccountOracle, ok: nat -> bool, i: nat)
    ensures var st := LoopAfter(cfg, chat, oracle, ok, i);
      Flatten(st.delivered) + st.pending == Successes(oracle, ok, i)
  {
    if i > 0 {
      DeliveredThenPendingAreSuccesses(cfg, chat, oracle, ok, i - 1);
    }
  }

  /** Without a chat id nothing is delivered and every success stays pending. */
  lemma NoChatNoDelivery(cfg: Config, chat: Option<string>, oracle: nat -> AccountOracle, ok: nat -> bool, i: nat)
    requires !Notifying(chat)
    ensures LoopAfter(cfg, chat, oracle, ok, i).delivered == []
    ensures LoopAfter(cfg, chat, oracle, ok, i).pending == Successes(oracle, ok, i)
  {
    DeliveredThenPendingAreSuccesses(cfg, chat, oracle, ok, i);
    NoChatNoDeliveryAux(cfg, chat, oracle, ok, i);
  }

  lemma {:induction false} NoChatNoDeliveryAux(cfg: Config, chat: Option<string>, oracle: nat -> AccountOracle, ok: nat -> bool, i: nat)
    requires !Notifying(chat)
    ensures LoopAfter(cfg, chat, oracle, ok, i).delivered == []
  {
    if i > 0 {
      NoChatNoDeliveryAux(cfg, chat, oracle, ok, i - 1);
    }
  }

  /** Inside the loop a batch is delivered only once it holds at least
      `batchSize` accounts, and never empty. */
  lemma {:induction false} BatchesAtLeastBatchSize(cfg: Config, chat: Option<string>, oracle: nat -> AccountOracle, ok: nat -> bool, i: nat)
    ensures forall b :: b in LoopAfter(cfg, chat, oracle, ok, i).delivered ==> |b| >= cfg.batchSize && |b| > 0
  {
    if i > 0 {
      BatchesAtLeastBatchSize(cfg, chat, oracle, ok, i - 1);
    }
  }

  /** When every delivery succeeds, the list is delivered as soon as it reaches
      `batchSize`: every batch has exactly that size and less remains pending. */
  lemma {:induction false} FullBatchesWhenDeliveriesSucceed(cfg: Config, chat: Option<string>, oracle: nat -> AccountOracle, ok: nat -> bool, i: nat)
    requires Notifying(chat) && cfg.batchSize >= 1 && AllNotified(oracle, i)
    ensures var st := LoopAfter(cfg, chat, oracle, ok, i);
      |st.pending| < cfg.batchSize && forall b :: b in st.delivered ==> |b| == cfg.batchSize
  {
    if i > 0 {
      FullBatchesWhenDeliveriesSucceed(cfg, chat, oracle, ok, i - 1);
    }
  }

  /** With a chat id and every delivery succeeding, the delivered batches
      concatenate to the successful accounts in order; every batch but the
      last holds exactly `batchSize`, and the last holds between 1 and `batchSize`. */
  lemma BatchesPartitionSuccesses(cfg: Config, chat: Option<string>, oracle: nat -> AccountOracle, ok: nat -> bool, n: nat)
    requires Notifying(chat) && cfg.batchSize >= 1 && AllNotified(oracle, n)
    ensures var d := FinalFlush(chat, LoopAfter(cfg, chat, oracle, ok, n), true).delivered;
      Flatten(d) == Successes(oracle, ok, n)
      && (forall j :: 0 <= j < |d| - 1 ==> |d[j]| == cfg.batchSize)
      && (d != [] ==> 1 <= |d[|d| - 1]| <= cfg.batchSize)
  {
    var st := LoopAfter(cfg, chat, oracle, ok, n);
    DeliveredThenPendingAreSuccesses(cfg, chat, oracle, ok, n);
    FullBatchesWhenDeliveriesSucceed(cfg, chat, oracle, ok, n);
    var d := FinalFlush(chat, st, true).delivered;
    if st.pending != [] {
      assert d[..|d| - 1] == st.delivered;
      assert forall j :: 0 <= j < |d| - 1 ==> d[j] in st.delivered;
    } else {
      assert Flatten(st.delivered) + [] == Flatten(st.delivered);
      assert forall j :: 0 <= j < |d| ==> d[j] in st.delivered;
    }
  }

  // ---------------------------------------------------------------------------
  // The loop itself

  /** The state of `main` that the loop updates. */
  class Runner {
    const cfg: Config
    const main: Account
    const chat: Option<string>
    /** successful_accounts */
    var pending: seq<Account>
    /** the batches handed to the chat */
    var delivered: seq<seq<Account>>
    /** the accounts appended to the address and key files */
    var saved: seq<Account>

    function State(): LoopState
      reads this
    {
      LoopState(pending, delivered, saved)
    }

    constructor (cfg: Config, main: Account, chat: Option<string>)
      ensures this.cfg == cfg && this.main == main && this.chat == chat
      ensures State() == LoopState([], [], [])
    {
      this.cfg := cfg;
      this.main := main;
      this.chat := chat;
      pending, delivered, saved := [], [], [];
    }

    /** The loop over `n` accounts and the final delivery of the remainder. */
    method Run(n: nat, oracle: nat -> AccountOracle, finalOk: bool)
      modifies this
      ensures State() == FinalFlush(chat, LoopAfter(cfg, chat, oracle, Outcomes(cfg, main, oracle), n), finalOk)
    {
      pending, delivered, saved := [], [], [];
      for i := 0 to n
        invariant State() == LoopAfter(cfg, chat, oracle, Outcomes(cfg, main, oracle), i)
      {
        var o := oracle(i);
        saved := saved + [o.account];
        var p := ProcessAccount(cfg, main, o);
        if p.ok {
          pending := pending + [o.account];
          if Notifying(chat) && |pending| >= cfg.batchSize && o.notifyOk {
            delivered := delivered + [pending];
            pending := [];
          }
        }
      }
      if Notifying(chat) && pending != [] && finalOk {
        delivered := delivered + [pending];
      }
    }

    /** From connecting onwards: when no endpoint connects, nothing is
        generated, sent or delivered; otherwise the loop runs. */
    method Start(probe: Failover.Url -> Failover.Probe, n: nat, oracle: nat -> AccountOracle, finalOk: bool)
      returns (r: Result<Failover.Connection, Failover.ConnectError>)
      modifies this
      ensures r.Ok? <==> exists j :: 0 <= j < |cfg.rpcUrls| && probe(cfg.rpcUrls[j]) == Failover.Connected
      ensures r.Err? ==> State() == old(State())
      ensures r.Ok? ==> State() == FinalFlush(chat, LoopAfter(cfg, chat, oracle, Outcomes(cfg, main, oracle), n), finalOk)
    {
      var probed;
      r, probed := Failover.InitWeb3(cfg.rpcUrls, probe);
      if r.Ok? {
        Run(n, oracle, finalOk);
      }
    }
  }
}
