# Matching-donation commitment ledger

A model of the NEAR contract in `src/simple/assembly/index.ts`. Matchers commit
funds to match donations made to a recipient. The contract keeps one persistent
ledger, recipient -> (matcher -> committed amount). Three entry points use it:

- `offerMatchingFunds` raises the calling matcher's commitment.
- `rescindMatchingFunds` lowers it, or deletes it when the request reaches the
  whole commitment.
- `donate` sends the donation to the recipient. It then sends one matching
  transfer per listed matcher, each the smaller of the donation and that
  matcher's commitment.

Layout:

- `wrappers.dfy`: `Option` and `Result`.
- `amounts.dfy`: `Min`.
- `matcher_map.dfy`: the per-recipient collection. It keeps its key listing
  (`keys`, the order `keys()` returns) next to its key/value view (`amounts`).
- `ledger.dfy`: each entry point's effect on the ledger as a function of the
  ledger before the call, plus the lemmas relating those functions.
- `escrow.dfy`: the class `MatchingContract`. Its `commitments` field is the
  ledger, and its methods are the entry points.
  - `OfferMatchingFunds` follows the source's branches and is proved to leave
    the ledger `Offer` gives.
  - `RescindMatchingFunds` is proved to leave the ledger, refund and report
    `Rescind` gives. It refunds the amount deducted rather than the requested
    amount, and issues its one transfer after the lookups (see Findings).
  - `Donate` and `SendMatchingDonation` only read the ledger. Their contracts
    state the transfers and reports directly, in terms of the ledger.

Host interaction becomes plain values:

- The caller (`Context.sender`) is a parameter.
- The contract's own account (`Context.contractName`) is a constant set by the
  constructor.
- Each `ContractPromiseBatch...transfer` is returned as a `Transfer(destination,
  amount)` record, in issue order.
- Each logged or returned string is a structured `Message`.
- A failed `assert` or `getSome` aborts the NEAR call. The host then discards
  the call's state changes and the promises it created. So an abort is a
  `Failure` result, with the ledger unchanged and no transfers.

The model follows the code as written, not a confirm-then-commit design:

- No ledger change waits for a transfer to be confirmed.
- `donate` never lowers a commitment. `Donate` has no `modifies` clause, so the
  ledger is provably unchanged, and every later donation is matched against the
  same commitments.
- `offerMatchingFunds` records the commitment in the same call that issues the
  deposit transfer.
- A recipient stays in the ledger after its last matcher rescinds. Its
  collection is then empty, and a later `donate` to it succeeds with only the
  primary transfer. `donate` rejects only a recipient that was never offered
  to.
- Zero amounts are accepted by offer and rescind. An offer of 0 creates a
  zero commitment, and `donate` then issues a matching transfer of 0 for it.

## Model

| member | source | states |
|---|---|---|
| `Amounts.Min` | src/simple/assembly/index.ts:50-53 | the result is at most each argument and equals one of them |
| `MatcherMaps.Set` | src/simple/assembly/index.ts:39-42 | `set` gives the key the new value and keeps every other entry. An existing key keeps its listing position; a new key is listed last. The collection stays consistent |
| `MatcherMaps.Delete` | src/simple/assembly/index.ts:66 | `delete` removes exactly that key from the map and the listing. Every other entry keeps its value. Deleting an absent key changes nothing |
| `Ledger.Offer` | src/simple/assembly/index.ts:32-44 | An existing commitment becomes old + amount. A missing recipient or matcher entry becomes exactly amount. `total` is the new commitment. A new matcher is listed last under the recipient; an existing one keeps its place. No other (recipient, matcher) entry and no other recipient's collection changes |
| `Ledger.Withdraw` | src/simple/assembly/index.ts:60-71 | A missing recipient or matcher aborts with the matching error. A request >= the commitment deletes the entry and rescinds exactly the prior commitment. A smaller request leaves commitment - amount, which is positive and, for a positive request, smaller than before. Rescinded + remaining = prior, and nothing else changes |
| `Ledger.RescindAsWritten` | src/simple/assembly/index.ts:55-74 | as written: aborts exactly when `Withdraw` does, with its error. Otherwise the ledger changes as `Withdraw` says, while the refund to the matcher is the requested amount |
| `Ledger.Rescind` | src/simple/assembly/index.ts:55-74 | corrected: aborts exactly when there is no commitment, with `Withdraw`'s error. Otherwise the ledger changes as `Withdraw` says (a request >= the commitment deletes the entry; nothing else changes). The refund goes to the matcher and is Min(request, prior commitment). Refund + what remains committed = prior commitment |
| `Ledger.RescindAsWrittenOverpays` | src/simple/assembly/index.ts:58-65 | with commitment 10, rescinding 25 deducts 10 but transfers 25 |
| `Ledger.RescindAsWrittenOverpaysAboveCommitment` | src/simple/assembly/index.ts:58-66 | for any request above the commitment, the as-written refund exceeds what the ledger releases |
| `Ledger.OfferThenRescind` | src/simple/assembly/index.ts:26-74 | offering x > 0 then rescinding x refunds x and restores every commitment (an entry that held 0 is removed) |
| `Ledger.OffersAccumulate` | src/simple/assembly/index.ts:32-39 | after a non-empty run of offers, the commitment is the prior commitment plus their sum |
| `Ledger.OffersKeepOthers` | src/simple/assembly/index.ts:32-44 | a run of offers by one matcher to one recipient leaves every other commitment unchanged |
| `Escrow.MatchingContract.constructor` | src/simple/assembly/index.ts:14 | the ledger starts empty and consistent |
| `Escrow.MatchingContract.OfferMatchingFunds` | src/simple/assembly/index.ts:26-48 | issues one transfer of amount to the escrow account. The new ledger is `Offer` of the old one, and the report names the new total |
| `Escrow.MatchingContract.RescindMatchingFunds` | src/simple/assembly/index.ts:55-74 | On abort: no transfer and no ledger change. Otherwise: the new ledger is `Rescind` of the old one, and exactly one refund transfer goes to the matcher |
| `Escrow.MatchingContract.SendMatchingDonation` | src/simple/assembly/index.ts:108-120 | The matched transfer goes to the recipient. It is at most the donation and at most the commitment, and equals one of them. The report names the matched amount |
| `Escrow.MatchingContract.Donate` | src/simple/assembly/index.ts:122-140 | Amount 0 aborts. An unknown recipient aborts. Otherwise: first the donation goes to the recipient, then one transfer per listed matcher in listing order, each Min(amount, commitment). There are 1 + (number of matchers) transfers and reports, and the ledger is not modified |

## Findings

| source | as written | input that shows it | evidently intended | confidence | as-written member | corrected member |
|---|---|---|---|---|---|---|
| src/simple/assembly/index.ts:58-66 | the refund transfer to the matcher carries the requested `amount`, but only `min(amount, commitment)` is deducted from the ledger | commitment of A to R is 10; A rescinds 25: 25 is transferred to A, the ledger releases 10 | refund exactly the amount rescinded (`amountToRescind`), never more than the commitment; the comment at line 57 also rules out refunding above the commitment | medium, not executed | `Ledger.RescindAsWritten`, `Ledger.RescindAsWrittenOverpays` | `Ledger.Rescind` (used by `Escrow.MatchingContract.RescindMatchingFunds`) |

## Left out

- Ledger.Offer: does not model `u128` overflow of `u128.add`, whose behaviour on overflow is not part of this model; amounts are unbounded `nat`.
- Escrow.MatchingContract.RescindMatchingFunds: follows the corrected refund (see Findings), not the requested amount transferred at line 58. It issues the refund after the lookups, where line 58 issues the transfer before them; an aborted call discards the transfer either way.
- The storage prefix of a newly created collection is named after the matcher, not the recipient (line 41). Two recipients offered to by the same matcher could therefore share storage. Each recipient's collection is modelled as an independent value.
- MatcherMaps.Delete: keeps the remaining keys in their relative order. The near-sdk-as `PersistentUnorderedMap` library, which is not part of this model, commonly moves the last key into the deleted key's slot instead. After a rescind that deletes a matcher, the order of `donate`'s matching transfers and reports may therefore differ from the library's. Their amounts and count do not.
- Asynchronous completion (`onTransferComplete`, `assert_single_promise_success`, `assert_self`, the `then(...).function_call(...)` at line 116). They depend on promise results delivered by the host, and the callback changes no ledger state.
- The host itself: whether a transfer succeeds, gas, and the logging side effect of `logging.log`.
- The exact text of reports (lines 45, 67, 70, 117, 129) and their joining into one string at line 137. Reports are structured values with the same fields.
