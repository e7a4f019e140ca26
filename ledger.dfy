/** The commitment ledger, recipient -> (matcher -> committed amount), and the
    state transitions the contract's entry points apply to it, as functions of
    the ledger before the call. */
module Ledger {
  import opened Wrappers
  import opened Amounts
  import opened MatcherMaps

  /** The persistent `commitments` map: one matcher collection per recipient. */
  type Commitments = map<AccountId, MatcherMap>

  /** An outgoing transfer the contract asks the host to perform. */
  datatype Transfer = Transfer(destination: AccountId, amount: nat)

  /** The report an entry point returns and logs, by kind and the values it names. */
  datatype Message =
    | Committed(matcher: AccountId, recipient: AccountId, total: nat)
    | NoLongerMatching(matcher: AccountId, recipient: AccountId)
    | Rescinded(matcher: AccountId, rescinded: nat, recipient: AccountId, reported: nat)
    | Donated(sender: AccountId, recipient: AccountId, amount: nat)
    | Matched(matcher: AccountId, recipient: AccountId, amount: nat)

  /** Why a call aborts: a failed `assert` or a `getSome` on a missing key. */
  datatype Error = ZeroAmount | UnknownRecipient | UnknownMatcher

  ghost predicate LedgerValid(c: Commitments)
  {
    forall r :: r in c ==> Valid(c[r])
  }

  /** The commitment of `matcher` to `recipient`, if there is one. */
  function Lookup(c: Commitments, recipient: AccountId, matcher: AccountId): Option<nat>
  {
    if recipient in c && matcher in c[recipient].amounts
    then Some(c[recipient].amounts[matcher])
    else None
  }

  /** The commitment, with an absent one read as zero. */
  function Prior(c: Commitments, recipient: AccountId, matcher: AccountId): nat
  {
    match Lookup(c, recipient, matcher)
    case Some(v) => v
    case None => 0
  }

  datatype Offered = Offered(ledger: Commitments, total: nat)

  /** `offerMatchingFunds`: the matcher's commitment to the recipient grows by
      `amount`, a missing recipient or matcher entry being created with `amount`;
      `total` is the commitment afterwards. A new matcher is listed last under the
      recipient, an existing one keeps its place. Nothing else in the ledger changes. */
  function Offer(c: Commitments, recipient: AccountId, matcher: AccountId, amount: nat): (o: Offered)
    requires LedgerValid(c)
    ensures LedgerValid(o.ledger)
    ensures Lookup(c, recipient, matcher).Some? ==> o.total == Lookup(c, recipient, matcher).value + amount
    ensures Lookup(c, recipient, matcher).None? ==> o.total == amount
    ensures Lookup(o.ledger, recipient, matcher) == Some(o.total)
    ensures o.ledger.Keys == c.Keys + {recipient}
    ensures recipient in c && matcher in c[recipient].amounts ==> o.ledger[recipient].keys == c[recipient].keys
    ensures recipient in c && matcher !in c[recipient].amounts ==> o.ledger[recipient].keys == c[recipient].keys + [matcher]
    ensures recipient !in c ==> o.ledger[recipient].keys == [matcher]
    ensures forall r, m :: (r != recipient || m != matcher) ==> Lookup(o.ledger, r, m) == Lookup(c, r, m)
    ensures forall r :: r in c && r != recipient ==> o.ledger[r] == c[r]
  {
    var matchers := if recipient in c then c[recipient] else Empty();
    var total := Prior(c, recipient, matcher) + amount;
    Offered(c[recipient := Set(matchers, matcher, total)], total)
  }

  datatype Withdrawal = Withdrawal(ledger: Commitments, rescinded: nat, remaining: nat)

  /** The ledger half of `rescindMatchingFunds`. Both the recipient and the
      matcher's entry under it must exist. A request of at least the commitment
      deletes the entry and rescinds the whole commitment; a smaller request
      leaves `commitment - amount`. The recipient's collection stays in the
      ledger even when it becomes empty. */
  function Withdraw(c: Commitments, recipient: AccountId, matcher: AccountId, amount: nat): (w: Result<Withdrawal, Error>)
    requires LedgerValid(c)
    ensures w.Failure? <==> Lookup(c, recipient, matcher).None?
    ensures w.Failure? ==> w.error == (if recipient in c then UnknownMatcher else UnknownRecipient)
    ensures w.Success? ==>
      var prior := Lookup(c, recipient, matcher).value;
      && LedgerValid(w.value.ledger)
      && w.value.rescinded == Min(amount, prior)
      && w.value.rescinded + w.value.remaining == prior
      && (amount >= prior ==> w.value.rescinded == prior && Lookup(w.value.ledger, recipient, matcher).None?)
      && (amount < prior ==> 0 < w.value.remaining && Lookup(w.value.ledger, recipient, matcher) == Some(w.value.remaining))
      && (0 < amount < prior ==> w.value.remaining < prior)
      && w.value.ledger.Keys == c.Keys
      && (forall r, m :: (r != recipient || m != matcher) ==> Lookup(w.value.ledger, r, m) == Lookup(c, r, m))
      && (forall r :: r in c && r != recipient ==> w.value.ledger[r] == c[r])
  {
    if recipient !in c then Failure(UnknownRecipient)
    else if matcher !in c[recipient].amounts then Failure(UnknownMatcher)
    else
      var total := c[recipient].amounts[matcher];
      if amount >= total then
        Success(Withdrawal(c[recipient := Delete(c[recipient], matcher)], total, 0))
      else
        Success(Withdrawal(c[recipient := Set(c[recipient], matcher, total - amount)], amount, total - amount))
  }

  /** A completed rescission: the ledger change, the refund sent to the matcher
      and the report. */
  datatype Rescission = Rescission(withdrawal: Withdrawal, refund: Transfer, message: Message)

  /** The report of a rescission: withdrawal of the whole commitment, or the
      rescinded amount together with the commitment as it stood before. */
  function RescindMessage(c: Commitments, recipient: AccountId, matcher: AccountId, amount: nat): Message
  {
    if amount >= Prior(c, recipient, matcher) then NoLongerMatching(matcher, recipient)
    else Rescinded(matcher, amount, recipient, Prior(c, recipient, matcher))
  }

  /** `rescindMatchingFunds` as written: the refund transfer carries the
      requested `amount`, even when only a smaller commitment is deducted. */
  function RescindAsWritten(c: Commitments, recipient: AccountId, matcher: AccountId, amount: nat): (r: Result<Rescission, Error>)
    requires LedgerValid(c)
    ensures r.Failure? <==> Withdraw(c, recipient, matcher, amount).Failure?
    ensures r.Failure? ==> r.error == Withdraw(c, recipient, matcher, amount).error
    ensures r.Success? ==> r.value.withdrawal == Withdraw(c, recipient, matcher, amount).value
    ensures r.Success? ==> r.value.refund == Transfer(matcher, amount)
  {
    match Withdraw(c, recipient, matcher, amount)
    case Failure(e) => Failure(e)
    case Success(w) =>
      Success(Rescission(w, Transfer(matcher, amount), RescindMessage(c, recipient, matcher, amount)))
  }

  /** `rescindMatchingFunds` with the refund equal to what is deducted from the
      commitment: the matcher gets back at most what they had committed, and
      exactly what the ledger no longer holds for them. */
  function Rescind(c: Commitments, recipient: AccountId, matcher: AccountId, amount: nat): (r: Result<Rescission, Error>)
    requires LedgerValid(c)
    ensures r.Failure? <==> Lookup(c, recipient, matcher).None?
    ensures r.Failure? ==> r.error == Withdraw(c, recipient, matcher, amount).error
    ensures r.Success? ==>
      && Withdraw(c, recipient, matcher, amount).Success?
      && r.value.withdrawal == Withdraw(c, recipient, matcher, amount).value
      && r.value.refund == Transfer(matcher, Min(amount, Lookup(c, recipient, matcher).value))
    ensures r.Success? ==>
      && r.value.refund.destination == matcher
      && r.value.refund.amount <= amount
      && r.value.refund.amount <= Lookup(c, recipient, matcher).value
      && r.value.refund.amount + Prior(r.value.withdrawal.ledger, recipient, matcher) == Lookup(c, recipient, matcher).value
  {
    match Withdraw(c, recipient, matcher, amount)
    case Failure(e) => Failure(e)
    case Success(w) =>
      Success(Rescission(w, Transfer(matcher, w.rescinded), RescindMessage(c, recipient, matcher, amount)))
  }

  /** With a commitment of 10 from "A" to "R", rescinding 25 deducts 10 from the
      ledger but sends 25 to the matcher. */
  lemma RescindAsWrittenOverpays()
    ensures
      var c := map["R" := MatcherMap(["A"], map["A" := 10])];
      var r := RescindAsWritten(c, "R", "A", 25);
      && r.Success?
      && r.value.withdrawal.rescinded == 10
      && r.value.refund.amount == 25
  {
  }

  /** In general, as written, any request above the commitment refunds more than
      the ledger releases. */
  lemma RescindAsWrittenOverpaysAboveCommitment(c: Commitments, recipient: AccountId, matcher: AccountId, amount: nat)
    requires LedgerValid(c)
    requires Lookup(c, recipient, matcher).Some? && amount > Lookup(c, recipient, matcher).value
    ensures RescindAsWritten(c, recipient, matcher, amount).Success?
    ensures RescindAsWritten(c, recipient, matcher, amount).value.refund.amount
            > RescindAsWritten(c, recipient, matcher, amount).value.withdrawal.rescinded
  {
  }

  /** Offering `x > 0` and then rescinding `x` brings every commitment back to
      what it was, and refunds exactly `x`; an entry that held zero is the
      exception, since the rescission removes it. */
  lemma OfferThenRescind(c: Commitments, recipient: AccountId, matcher: AccountId, x: nat)
    requires LedgerValid(c)
    requires 0 < x
    requires Lookup(c, recipient, matcher) != Some(0)
    ensures
      var o := Offer(c, recipient, matcher, x);
      var r := Rescind(o.ledger, recipient, matcher, x);
      && r.Success?
      && r.value.refund == Transfer(matcher, x)
      && forall rc, m :: Lookup(r.value.withdrawal.ledger, rc, m) == Lookup(c, rc, m)
  {
  }

  /** The sum of a sequence of amounts. */
  function Sum(xs: seq<nat>): nat
  {
    if xs == [] then 0 else xs[0] + Sum(xs[1..])
  }

  /** Repeated `offerMatchingFunds` calls by one matcher to one recipient. */
  function OfferAll(c: Commitments, recipient: AccountId, matcher: AccountId, xs: seq<nat>): (r: Commitments)
    requires LedgerValid(c)
    ensures LedgerValid(r)
    decreases |xs|
  {
    if xs == [] then c
    else OfferAll(Offer(c, recipient, matcher, xs[0]).ledger, recipient, matcher, xs[1..])
  }

  /** After a non-empty run of offers the commitment is the earlier commitment
      plus the sum of the offers. */
  lemma {:induction false} OffersAccumulate(c: Commitments, recipient: AccountId, matcher: AccountId, xs: seq<nat>)
    requires LedgerValid(c)
    requires xs != []
    ensures Lookup(OfferAll(c, recipient, matcher, xs), recipient, matcher) == Some(Prior(c, recipient, matcher) + Sum(xs))
    decreases |xs|
  {
    var c1 := Offer(c, recipient, matcher, xs[0]).ledger;
    OfferRaises(c, recipient, matcher, xs[0]);
    assert OfferAll(c, recipient, matcher, xs) == OfferAll(c1, recipient, matcher, xs[1..]);
    if xs[1..] == [] {
      assert Sum(xs) == xs[0];
    } else {
      OffersAccumulate(c1, recipient, matcher, xs[1..]);
    }
  }

  /** One offer raises the commitment, read as zero when absent, by its amount. */
  lemma OfferRaises(c: Commitments, recipient: AccountId, matcher: AccountId, x: nat)
    requires LedgerValid(c)
    ensures Lookup(Offer(c, recipient, matcher, x).ledger, recipient, matcher) == Some(Prior(c, recipient, matcher) + x)
    ensures Prior(Offer(c, recipient, matcher, x).ledger, recipient, matcher) == Prior(c, recipient, matcher) + x
  {
  }

  /** A run of offers by one matcher to one recipient leaves every other
      commitment as it was. */
  lemma {:induction false} OffersKeepOthers(c: Commitments, recipient: AccountId, matcher: AccountId, xs: seq<nat>, r: AccountId, m: AccountId)
    requires LedgerValid(c)
    requires r != recipient || m != matcher
    ensures Lookup(OfferAll(c, recipient, matcher, xs), r, m) == Lookup(c, r, m)
    decreases |xs|
  {
    if xs != [] {
      var o := Offer(c, recipient, matcher, xs[0]);
      OffersKeepOthers(o.ledger, recipient, matcher, xs[1..], r, m);
    }
  }
}
