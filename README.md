# A Dafny model of uni.py's decision logic

`uni.py` is a sequential script for Unichain. It takes a main account's private key, a number of
accounts and an optional Telegram chat id. For each new account it generates a key pair and makes
three transfers:

1. It funds the account from the main account with 0.00001 ether.
2. It sends 0 from the new account to a first collection address.
3. It sweeps the new account's balance, less a fixed fee, to a second collection address.

Successful accounts are reported to the chat in batches.

The model keeps the script's decision logic. The network, the signer, key generation, address
checksumming and the Telegram sends are oracles passed in as parameters. It has five modules:

- `Wrappers`: the `Option` and `Result` types.
- `Validators`: the three input validators (`validate_private_key`, `validate_chat_id`,
  `validate_num_accounts`). They work on strings of characters, with Python's `re.match` `$`,
  `str.isdigit`, `str.strip` and `int()` written out.
- `Failover`: `init_web3`, a loop over the RPC URLs with an early return. A probe oracle decides,
  for each URL, whether it is connected, not connected or throws.
- `Transfer`: one attempt of `send_transaction` as a function of the endpoint's answers during
  that attempt. The attempt records every call it makes (balance read, nonce read, signature,
  broadcast, receipt wait), so that what it does *not* call can be stated. The
  `@retry(stop_max_attempt_number=3)` decorator is modelled as a loop in the method `Send`. That
  loop is proved equal to the function `Retried`, whose contract is the declarative retry policy
  `RetryPolicy`.
- `Session`: the per-account pipeline (fund, forward 0, sweep or skip) and the account loop of
  `main`. The loop runs in class `Runner`, which holds the success list `successful_accounts`
  (`pending`), the batches handed to the chat (`delivered`) and the accounts written to the key
  files (`saved`). Its `Run` method is proved equal to the specification function `LoopAfter`
  followed by `FinalFlush`. The properties of batching are proved about those functions.

Amounts are natural numbers in wei. These settings are `Config` parameters, not constants:

- the collection addresses;
- the batch size (20 in the deployed configuration);
- the chain id (130);
- the checksumming function.

The funding amount `w3.to_wei(0.00001, 'ether')` is the constant 10^13 wei.

Four behaviours of the script are worth stating plainly:

- The script's retry decorator re-runs *every* failed attempt: a shortfall, a revert, a bad
  address and a signing error are retried just like a transport error
  (`Transfer.EveryErrorRetried`).
- The gas price is the fixed 10,000,000 wei, never read from the endpoint.
- The accounts are processed one after another; there is no worker pool.
- `validate_num_accounts` raises one and the same error for a non-number, zero and a negative
  number. Its inner "must be positive" error is caught by its own handler and replaced.

## Model

| member | source | states |
|---|---|---|
| `Validators.Trim` | uni.py:73-77 | the result is the input with only a leading and a trailing run of whitespace removed, and it neither starts nor ends with whitespace; `str.strip()` is this over Python's `isspace` set, `int()`'s own trimming is this over the smaller set it skips (without U+001C to U+001F) |
| `Validators.ValidatePrivateKey` | uni.py:43-46 | accepted, and returned unchanged, exactly when the input is "0x" and 64 hex digits, or that followed by one newline (which `$` lets through); otherwise an invalid-key error |
| `Validators.StrippedKeyAccepted` | uni.py:73-74 | after the caller's `strip()`, a key is accepted exactly when it is "0x" and 64 hex digits |
| `Validators.HexRun` | uni.py:44 | the number of hex digits `[0-9a-fA-F]` consumes: all characters before it are hex digits and the next one is not |
| `Validators.IsDigitString` | uni.py:49 | `isdigit()` holds exactly for a non-empty string of digits |
| `Validators.ValidateChatId` | uni.py:48-51 | the empty string and all-digit strings come back unchanged; any string with a non-digit is refused |
| `Validators.ValidateNumAccounts` | uni.py:53-60 | a count is returned exactly when `int()` accepts the input and the number is positive; every other input is the one count error |
| `Validators.ParseInt` | uni.py:55 | `int()` yields a number exactly when the input, trimmed of the whitespace `int()` skips, is an optional sign followed by digit groups joined by single underscores ("+5", "007", "1_000", "-3"), and the number is the sign applied to the value of its digits with the underscores dropped; a negative number only after a minus sign |
| `Validators.StrippedIntTrimUnchanged` | uni.py:75-76 | on the stripped count the script passes, `int()`'s trimming changes nothing, so the two whitespace sets never differ at this call |
| `Validators.SeparatorBeforeCountRejected` | uni.py:53-60 | a count behind the separator U+001C is refused, because `int()` does not skip it |
| `Validators.ParseDecimal` | uni.py:55 | `int()` reads every decimal rendering back as the same number |
| `Validators.PositiveCountAccepted` | uni.py:53-58 | every positive number typed in decimal is accepted as itself |
| `Validators.SignedNonPositiveRejected` | uni.py:53-60 | "-" followed by any decimal number (zero or a negative) is refused |
| `Validators.ZeroRejected` | uni.py:56-57 | "0" is refused |
| `Failover.InitWeb3` | uni.py:84-100 | probes URLs in list order, each once; returns the first connected URL and probes nothing after it; when none connects it has probed them all and fails |
| `Transfer.Attempt` | uni.py:153-192 | success exactly when both addresses convert, the balance covers value plus gas times 10,000,000, and nonce, payload, broadcast and a status-1 receipt all come back; then it returns the broadcast hash. A bad address fails before any call. A shortfall fails right after the balance read, with no nonce read, signature or broadcast. Every signed transaction carries this attempt's nonce, the checksummed recipient, the value, the gas, the fixed gas price and the chain id. A missing payload is a signing error with no broadcast. Any other receipt status is a revert |
| `Transfer.Retried` | uni.py:152-153 | the decorated call follows the retry policy: attempt j is the j-th run, at most 3 runs, every run but the last failed, and it stops early only on success; the result is the last run's |
| `Transfer.Send` | uni.py:152-192 | the decorator's loop over attempts produces exactly the decorated call's runs and result |
| `Transfer.SucceedsIffSomeAttemptSucceeds` | uni.py:152 | the call succeeds exactly when one of the first three attempts would, and returns the first successful attempt's hash |
| `Transfer.ThirdErrorPropagates` | uni.py:152 | when the call fails, the third attempt's error is what the caller sees |
| `Transfer.EveryErrorRetried` | uni.py:152 | any failed first attempt, whatever its error kind, is followed by a second attempt |
| `Transfer.NonceReadPerAttempt` | uni.py:162-171 | every transaction signed in attempt j carries the nonce read in attempt j |
| `Transfer.NoBroadcastOnShortfall` | uni.py:157-161 | an attempt that reads a balance below value plus fee broadcasts nothing, whichever attempt it is |
| `Transfer.ReceiptTimeoutRebroadcasts` | uni.py:175-183 | a broadcast whose receipt wait times out is retried, and the retry broadcasts a second transaction |
| `Session.Pipeline` | uni.py:215-230 | at most three transfers; every transfer but the last succeeded; the first is always the funding of 10^13 wei from the main account |
| `Session.PipelineForward` | uni.py:216-219 | the forward of 0 to the first collection address is made exactly when funding succeeded |
| `Session.PipelineSweep` | uni.py:219-227 | the sweep is made exactly when funding and forward succeeded and the balance read exceeds 21000 times 10,000,000; it moves the balance minus that fee to the second collection address |
| `Session.PipelineSuccess` | uni.py:222-231 | an account succeeds exactly when funding and forward succeeded, its balance was read, and the last transfer made succeeded; a balance at or below the fee skips the sweep and still succeeds |
| `Session.ProcessAccount` | uni.py:215-230 | the three calls of the decorated send, stopping at the first that raises, do exactly what the pipeline specifies |
| `Session.SweepIsAffordable` | uni.py:222-227 | a sweep attempt that reads the same balance never fails the shortfall check |
| `Session.Iterate` | uni.py:208-244 | one iteration saves the account; a success is appended and a failure changes neither list, so delivered batches followed by the pending list gain exactly this account when it succeeded; the list is delivered, whole, and emptied exactly when it reaches the batch size with a chat id set and the send succeeds |
| `Session.FinalFlush` | uni.py:245-252 | after the loop, a non-empty remainder is delivered exactly when a chat id is set and the send succeeds, as one new message after the earlier batches, which stay unchanged; the pending list and the saved accounts are untouched |
| `Session.Generated` | uni.py:207-210 | one account is generated per iteration, in order |
| `Session.SavesEveryAccount` | uni.py:207-214 | every generated account is saved, exactly one per iteration, whatever fails afterwards |
| `Session.DeliveredThenPendingAreSuccesses` | uni.py:231-244 | the delivered batches followed by the pending list are exactly the successful accounts, in order; a failed delivery keeps its accounts pending |
| `Session.NoChatNoDelivery` | uni.py:232 | without a chat id nothing is delivered and every success stays pending |
| `Session.BatchesAtLeastBatchSize` | uni.py:232-240 | inside the loop, a batch is delivered only once it holds at least the batch size, and never empty |
| `Session.FullBatchesWhenDeliveriesSucceed` | uni.py:231-240 | when every delivery succeeds, every batch has exactly the batch size and fewer than that remain pending |
| `Session.BatchesPartitionSuccesses` | uni.py:231-252 | with a chat id and every delivery succeeding, the delivered batches concatenate to the successful accounts in order, every batch but the last holds exactly the batch size, and the last holds between 1 and the batch size |
| `Session.Runner.constructor` | uni.py:206 | a runner starts with an empty success list, no deliveries and nothing saved |
| `Session.Runner.Run` | uni.py:206-252 | the loop over n accounts and the final delivery leave exactly the state the loop specification gives for those accounts' outcomes |
| `Session.Runner.Start` | uni.py:204-207 | the connection succeeds exactly when some configured URL's probe reports connected; when none does, nothing is generated, sent or delivered; otherwise the loop runs |

## Left out

- `install_dependencies`, logging, the console messages and the `getpass`/`input` prompting are
  plain I/O. So is the retry of `get_user_input` after an invalid entry.
- File writes and removal are left out. Saving an account is taken to succeed and is recorded in
  `saved`.
- Fernet encryption is a foreign crypto library, and its key is never stored.
- Telegram HTTP calls, `asyncio`, the message text and the final document send are left out. A
  notification send is an oracle answer that succeeds or raises.
- Key generation (`Account.create`) is an oracle that always yields an account. A generation
  failure on the first iteration would make the handler at uni.py:243 raise a `NameError` for the
  then-unbound `new_address`. That case is not modelled.
- EIP-55 checksumming (`to_checksum_address`) needs Keccak-256, which is not part of this model.
  It is an opaque partial function whose failure is the invalid-address error, whatever exception
  the library raised.
- The `web3` calls themselves (balance, nonce, signing, broadcast, receipt) are oracle answers per
  attempt. A signer that raises instead of returning an object is not modelled separately.
- The 2-second retry delay and the 120-second receipt timeout are left out. A timeout is one kind
  of transport error.
- `w3.to_wei(0.00001, 'ether')` is a float conversion; it is the constant 10^13 wei.
- The `silent` flag only suppresses a log line.
- Validators.ValidateNumAccounts: `int()` and `isdigit()` are modelled for ASCII digits only. Other
  Unicode decimal digits, which Python also accepts, are left out, as is `int()`'s limit on the
  number of digits.
- Validators.ValidateChatId: non-ASCII digits, which `isdigit()` accepts, are left out.
- Validators.ValidatePrivateKey: the regular-expression engine is written out for this one pattern
  only.
- Failover.InitWeb3: the connection object is the position and URL of the endpoint. The provider
  and its timeout setting are left out.
- The script's handling of generated private keys is outside this model: it writes them to a file
  and sends them to the chat.
