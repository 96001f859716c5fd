/** send_transaction and its retry decorator.

    One attempt converts both addresses to checksummed form, reads the sender's
    balance, refuses a shortfall, reads a fresh nonce, builds and signs the
    transaction, broadcasts it and waits for its receipt. Everything the
    endpoint answers during one attempt is an `AttemptEnv`; the calls the
    attempt makes on the endpoint and the signer are recorded in order, so
    that what was NOT called can be stated. The decorator re-runs the whole
    attempt on any error, at most three times. */
module Transfer {
  import opened Wrappers

  type Address = string
  type Key = string
  type Hash = string
  type RawTx = seq<bv8>

  /** Address checksumming (EIP-55), a foreign partial function: None when it raises. */
  type Checksum = Address -> Option<Address>

  /** The fixed gas price of every transaction, in wei. */
  const GasPrice: nat := 10_000_000
  /** The default gas limit of send_transaction. */
  const DefaultGas: nat := 21000
  /** stop_max_attempt_number of the retry decorator. */
  const MaxAttempts: nat := 3

  /** The exceptions an attempt can raise, by kind. */
  datatype SendError = InvalidAddress | InsufficientBalance | Signing | Reverted | Transport

  /** The transaction dictionary that is signed. */
  datatype Tx = Tx(nonce: nat, to: Address, value: nat, gas: nat, gasPrice: nat, chainId: nat)

  /** The arguments of one send_transaction call; amounts in wei. */
  datatype Request = Request(from: Address, to: Address, value: nat, key: Key, gas: nat)

  /** The receipt wait: a mined receipt with its status, or none within the timeout. */
  datatype Receipt = Mined(status: int) | NoReceipt

  /** The endpoint's and signer's answers during one attempt. A None read
      raised; a None signed payload is a signed object without raw bytes. */
  datatype AttemptEnv = AttemptEnv(
    balance: Option<nat>,
    nonce: Option<nat>,
    signed: Option<RawTx>,
    broadcast: Option<Hash>,
    receipt: Receipt)

  /** A call made during an attempt, on the endpoint or the signer. */
  datatype Call =
    | GetBalance(account: Address)
    | GetNonce(account: Address)
    | Sign(tx: Tx, key: Key)
    | Broadcast(raw: RawTx)
    | AwaitReceipt(hash: Hash)

  datatype AttemptRun = AttemptRun(result: Result<Hash, SendError>, calls: seq<Call>)

  /** A decorated call: its outcome and every attempt it made, in order. */
  datatype SendRun = SendRun(result: Result<Hash, SendError>, attempts: seq<AttemptRun>)

  /** The fee reserved for a gas limit at the fixed price. */
  function Fee(gas: nat): nat { gas * GasPrice }

  predicate Broadcasts(calls: seq<Call>) {
    exists i :: 0 <= i < |calls| && calls[i].Broadcast?
  }

  predicate ReadsNonce(calls: seq<Call>) {
    exists i :: 0 <= i < |calls| && calls[i].GetNonce?
  }

  /** Both addresses convert and the balance read in this attempt covers value plus fee. */
  predicate Funded(checksum: Checksum, req: Request, env: AttemptEnv) {
    checksum(req.to).Some? && checksum(req.from).Some? && env.balance.Some?
    && req.value + Fee(req.gas) <= env.balance.value
  }

  /** One attempt of send_transaction. */
  function Attempt(chainId: nat, checksum: Checksum, req: Request, env: AttemptEnv): (r: AttemptRun)
    // success exactly when every step answers well and the receipt status is 1
    ensures r.result.Ok? <==>
      Funded(checksum, req, env) && env.nonce.Some? && env.signed.Some?
      && env.broadcast.Some? && env.receipt == Mined(1)
    ensures r.result.Ok? ==>
      r.result.value == env.broadcast.value && Broadcast(env.signed.value) in r.calls
    // a malformed address fails before anything is read
    ensures r.result == Err(InvalidAddress) <==> checksum(req.to).None? || checksum(req.from).None?
    ensures r.result == Err(InvalidAddress) ==> r.calls == []
    // a shortfall fails right after the balance read: no nonce, no signature, no broadcast
    ensures checksum(req.to).Some? && checksum(req.from).Some? && env.balance.Some?
            && env.balance.value < req.value + Fee(req.gas) ==>
      r.result == Err(InsufficientBalance) && r.calls == [GetBalance(checksum(req.from).value)]
    ensures r.result == Err(InsufficientBalance) ==> !ReadsNonce(r.calls) && !Broadcasts(r.calls)
    ensures Broadcasts(r.calls) ==> Funded(checksum, req, env)
    // the signed transaction carries this attempt's nonce and the fixed fields
    ensures forall c :: c in r.calls && c.Sign? ==>
      env.nonce.Some? && checksum(req.to).Some?
      && c.tx == Tx(env.nonce.value, checksum(req.to).value, req.value, req.gas, GasPrice, chainId)
      && c.key == req.key
    // a missing payload is a signing error and nothing is broadcast
    ensures r.result == Err(Signing) <==> Funded(checksum, req, env) && env.nonce.Some? && env.signed.None?
    ensures r.result == Err(Signing) ==> !Broadcasts(r.calls)
    // a mined receipt with any status but 1 is a revert
    ensures r.result == Err(Reverted) <==>
      Funded(checksum, req, env) && env.nonce.Some? && env.signed.Some?
      && env.broadcast.Some? && env.receipt.Mined? && env.receipt.status != 1
  {
    match (checksum(req.to), checksum(req.from))
    case (None, _) => AttemptRun(Err(InvalidAddress), [])
    case (_, None) => AttemptRun(Err(InvalidAddress), [])
    case (Some(to), Some(from)) =>
      var reading := [GetBalance(from)];
      match env.balance
      case None => AttemptRun(Err(Transport), reading)
      case Some(balance) =>
        if balance < req.value + Fee(req.gas) then AttemptRun(Err(InsufficientBalance), reading)
        else
          var counting := reading + [GetNonce(from)];
          match env.nonce
          case None => AttemptRun(Err(Transport), counting)
          case Some(nonce) =>
            var tx := Tx(nonce, to, req.value, req.gas, GasPrice, chainId);
            var signing := counting + [Sign(tx, req.key)];
            match env.signed
            case None => AttemptRun(Err(Signing), signing)
            case Some(raw) =>
              var sending := signing + [Broadcast(raw)];
              match env.broadcast
              case None => AttemptRun(Err(Transport), sending)
              case Some(hash) =>
                var waiting := sending + [AwaitReceipt(hash)];
                match env.receipt
                case NoReceipt => AttemptRun(Err(Transport), waiting)
                case Mined(status) =>
                  if status == 1 then AttemptRun(Ok(hash), waiting)
                  else AttemptRun(Err(Reverted), waiting)
  }

  /** The attempts of one send_transaction call, attempt `j` (counting from 0)
      seeing the endpoint's answers env(j). */
  function AttemptsOf(chainId: nat, checksum: Checksum, req: Request, env: nat -> AttemptEnv): nat -> AttemptRun {
    (j: nat) => Attempt(chainId, checksum, req, env(j))
  }

  /** The retry decorator's policy, given what each attempt would do: attempt
      `j` is the `j`-th run, at most `MaxAttempts` runs are made, every run but
      the last failed, and it stops early only on a success. */
  predicate RetryPolicy(attempt: nat -> AttemptRun, runs: seq<AttemptRun>) {
    1 <= |runs| <= MaxAttempts
    && (forall j :: 0 <= j < |runs| ==> runs[j] == attempt(j))
    && (forall j :: 0 <= j < |runs| - 1 ==> runs[j].result.Err?)
    && (runs[|runs| - 1].result.Ok? || |runs| == MaxAttempts)
  }

  /** The runs of the decorator, continuing after the runs `done` of the
      attempts before number `k`. */
  function RetryFrom(attempt: nat -> AttemptRun, done: seq<AttemptRun>, k: nat): seq<AttemptRun>
    requires k < MaxAttempts
    decreases MaxAttempts - k
  {
    var runs := done + [attempt(k)];
    if attempt(k).result.Ok? || k + 1 == MaxAttempts then runs
    else RetryFrom(attempt, runs, k + 1)
  }

  lemma {:induction false} RetryFromFollowsPolicy(attempt: nat -> AttemptRun, done: seq<AttemptRun>, k: nat)
    requires k < MaxAttempts && |done| == k
    requires forall j :: 0 <= j < k ==> done[j] == attempt(j) && done[j].result.Err?
    decreases MaxAttempts - k
    ensures RetryPolicy(attempt, RetryFrom(attempt, done, k))
  {
    if attempt(k).result.Err? && k + 1 < MaxAttempts {
      RetryFromFollowsPolicy(attempt, done + [attempt(k)], k + 1);
    }
  }

  /** The decorated call: it follows the retry policy, and its outcome is
      that of the last attempt made. */
  function Retried(attempt: nat -> AttemptRun): (s: SendRun)
    ensures RetryPolicy(attempt, s.attempts)
    ensures s.result == s.attempts[|s.attempts| - 1].result
  {
    RetryFromFollowsPolicy(attempt, [], 0);
    var runs := RetryFrom(attempt, [], 0);
    SendRun(runs[|runs| - 1].result, runs)
  }

  /** send_transaction under @retry(stop_max_attempt_number=3): the decorator's
      loop, re-running the whole attempt while it raises. */
  method Send(chainId: nat, checksum: Checksum, req: Request, env: nat -> AttemptEnv) returns (s: SendRun)
    ensures s == Retried(AttemptsOf(chainId, checksum, req, env))
  {
    var attempt := AttemptsOf(chainId, checksum, req, env);
    var attempts: seq<AttemptRun> := [];
    var k := 0;
    while true
      invariant k < MaxAttempts
      invariant RetryFrom(attempt, attempts, k) == RetryFrom(attempt, [], 0)
      decreases MaxAttempts - k
    {
      var run := attempt(k);
      attempts := attempts + [run];
      if run.result.Ok? || k + 1 == MaxAttempts {
        return SendRun(run.result, attempts);
      }
      k := k + 1;
    }
  }

  // ---------------------------------------------------------------------------
  // Properties of the decorated call

  /** The call succeeds exactly when one of the three attempts would, and then
      it returns the outcome of the first attempt that succeeds. */
  lemma {:induction false} SucceedsIffSomeAttemptSucceeds(attempt: nat -> AttemptRun)
    ensures Retried(attempt).result.Ok? <==> exists j :: 0 <= j < MaxAttempts && attempt(j).result.Ok?
    ensures Retried(attempt).result.Ok? ==>
      var n := |Retried(attempt).attempts|;
      Retried(attempt).result == attempt(n - 1).result
      && forall j :: 0 <= j < n - 1 ==> attempt(j).result.Err?
  {
  }

  /** After the third failure, the third attempt's error is what the caller sees. */
  lemma ThirdErrorPropagates(attempt: nat -> AttemptRun)
    requires Retried(attempt).result.Err?
    ensures Retried(attempt).result == attempt(2).result
  {
  }

  /** The decorator retries on every error, terminal kinds included: a failed
      first attempt (a shortfall, a revert, a bad address) is followed by a second. */
  lemma EveryErrorRetried(attempt: nat -> AttemptRun)
    requires attempt(0).result.Err?
    ensures |Retried(attempt).attempts| >= 2 && Retried(attempt).attempts[1] == attempt(1)
  {
  }

  /** Nonces are never cached: every transaction signed during attempt j
      carries the nonce read in attempt j. */
  lemma NonceReadPerAttempt(chainId: nat, checksum: Checksum, req: Request, env: nat -> AttemptEnv, j: nat, c: Call)
    requires j < |Retried(AttemptsOf(chainId, checksum, req, env)).attempts|
    requires c in Retried(AttemptsOf(chainId, checksum, req, env)).attempts[j].calls && c.Sign?
    ensures env(j).nonce.Some? && c.tx.nonce == env(j).nonce.value
  {
  }

  /** An attempt that sees a shortfall broadcasts nothing, whichever attempt it is. */
  lemma NoBroadcastOnShortfall(chainId: nat, checksum: Checksum, req: Request, env: nat -> AttemptEnv, j: nat)
    requires j < |Retried(AttemptsOf(chainId, checksum, req, env)).attempts|
    requires env(j).balance.Some? && env(j).balance.value < req.value + Fee(req.gas)
    ensures !Broadcasts(Retried(AttemptsOf(chainId, checksum, req, env)).attempts[j].calls)
  {
  }

  /** A receipt wait that times out is retried with a fresh nonce: when the
      first attempt's transaction was broadcast but no receipt came within the
      timeout, the second attempt broadcasts a second transfer of the same value. */
  lemma ReceiptTimeoutRebroadcasts(chainId: nat, checksum: Checksum, req: Request, env: nat -> AttemptEnv)
    requires Funded(checksum, req, env(0)) && env(0).nonce.Some? && env(0).signed.Some?
             && env(0).broadcast.Some? && env(0).receipt == NoReceipt
    requires Funded(checksum, req, env(1)) && env(1).nonce.Some? && env(1).signed.Some?
             && env(1).broadcast.Some? && env(1).receipt == Mined(1)
    ensures var s := Retried(AttemptsOf(chainId, checksum, req, env));
      |s.attempts| == 2 && s.result.Ok?
      && Broadcasts(s.attempts[0].calls) && Broadcasts(s.attempts[1].calls)
  {
    var first := Attempt(chainId, checksum, req, env(0));
    assert first.calls[3] == Broadcast(env(0).signed.value);
    var second := Attempt(chainId, checksum, req, env(1));
    assert Broadcast(env(1).signed.value) in second.calls;
  }
}
