/** The contract's entry points over its persistent ledger. The calling account
    (`Context.sender`) is a parameter of each call, the contract's own account
    (`Context.contractName`) is fixed at deployment, and each transfer the call
    asks the host for is returned as a `Transfer` record. A call that aborts
    returns `Failure` and leaves the ledger as it was and no transfer behind. */
module Escrow {
  import opened Wrappers
  import opened Amounts
  import opened MatcherMaps
  import opened Ledger

  /** What a successful `donate` produced: the transfers in the order they were
      issued and the report lines in the order they were pushed. */
  datatype Donation = Donation(transfers: seq<Transfer>, messages: seq<Message>)

  class MatchingContract {
    const contractName: AccountId
    var commitments: Commitments

    ghost predicate Valid()
      reads this
    {
      LedgerValid(commitments)
    }

    constructor (contractName: AccountId)
      ensures Valid()
      ensures this.contractName == contractName && commitments == map[]
    {
      this.contractName := contractName;
      commitments := map[];
    }

    /** `offerMatchingFunds`: one transfer of `amount` to the escrow account,
        then the sender's commitment to `recipient` grows by `amount`. */
    method OfferMatchingFunds(sender: AccountId, recipient: AccountId, amount: nat)
      returns (result: Message, sent: seq<Transfer>)
      requires Valid()
      modifies this
      ensures Valid()
      ensures commitments == Offer(old(commitments), recipient, sender, amount).ledger
      ensures result == Committed(sender, recipient, Offer(old(commitments), recipient, sender, amount).total)
      ensures sent == [Transfer(contractName, amount)]
    {
      sent := [Transfer(contractName, amount)];
      var total := amount;
      if recipient in commitments {
        var matchersForThisRecipient := commitments[recipient];
        if sender in matchersForThisRecipient.amounts {
          total := matchersForThisRecipient.amounts[sender] + amount;
        }
        commitments := commitments[recipient := Set(matchersForThisRecipient, sender, total)];
      } else {
        commitments := commitments[recipient := Set(Empty(), sender, amount)];
      }
      result := Committed(sender, recipient, total);
    }

    /** `rescindMatchingFunds`, refunding what is deducted from the commitment.
        A missing recipient or matcher entry aborts the call. */
    method RescindMatchingFunds(sender: AccountId, recipient: AccountId, amount: nat)
      returns (result: Result<Message, Error>, sent: seq<Transfer>)
      requires Valid()
      modifies this
      ensures Valid()
      ensures match Rescind(old(commitments), recipient, sender, amount)
        case Failure(e) => result == Failure(e) && sent == [] && commitments == old(commitments)
        case Success(r) => result == Success(r.message) && sent == [r.refund] && commitments == r.withdrawal.ledger
    {
      if recipient !in commitments {
        return Failure(UnknownRecipient), [];
      }
      var matchersForThisRecipient := commitments[recipient];
      if sender !in matchersForThisRecipient.amounts {
        return Failure(UnknownMatcher), [];
      }
      var total := matchersForThisRecipient.amounts[sender];
      var amountToRescind := amount;
      var message;
      if amount >= total {
        amountToRescind := total;
        commitments := commitments[recipient := Delete(matchersForThisRecipient, sender)];
        message := NoLongerMatching(sender, recipient);
      } else {
        commitments := commitments[recipient := Set(matchersForThisRecipient, sender, total - amountToRescind)];
        message := Rescinded(sender, amountToRescind, recipient, total);
      }
      result := Success(message);
      sent := [Transfer(sender, amountToRescind)];
    }

    /** `sendMatchingDonation`: the matcher's leg of a donation, the smaller of
        the donation and the matcher's commitment, sent to the recipient. */
    method SendMatchingDonation(matcher: AccountId, recipient: AccountId, amount: nat, matchersForThisRecipient: MatcherMap)
      returns (transfer: Transfer, message: Message)
      requires matcher in matchersForThisRecipient.amounts
      ensures transfer.destination == recipient
      ensures transfer.amount <= amount && transfer.amount <= matchersForThisRecipient.amounts[matcher]
      ensures transfer.amount == amount || transfer.amount == matchersForThisRecipient.amounts[matcher]
      ensures message == Matched(matcher, recipient, transfer.amount)
    {
      var remainingCommitment := matchersForThisRecipient.amounts[matcher];
      var matchedAmount := Min(amount, remainingCommitment);
      transfer := Transfer(recipient, matchedAmount);
      message := Matched(matcher, recipient, matchedAmount);
    }

    /** `donate`: the donation itself goes to the recipient first, then each
        matcher listed for the recipient, in listing order, sends the smaller
        of the donation and its commitment. The ledger is only read. */
    method Donate(sender: AccountId, recipient: AccountId, amount: nat)
      returns (result: Result<Donation, Error>)
      requires Valid()
      ensures amount == 0 ==> result == Failure(ZeroAmount)
      ensures 0 < amount && recipient !in commitments ==> result == Failure(UnknownRecipient)
      ensures 0 < amount && recipient in commitments ==>
        var matchers := commitments[recipient];
        && result.Success?
        && |result.value.transfers| == 1 + |matchers.keys|
        && |result.value.messages| == 1 + |matchers.keys|
        && result.value.transfers[0] == Transfer(recipient, amount)
        && result.value.messages[0] == Donated(sender, recipient, amount)
        && (forall i :: 0 <= i < |matchers.keys| ==>
              && matchers.keys[i] in matchers.amounts
              && result.value.transfers[i + 1] == Transfer(recipient, Min(amount, matchers.amounts[matchers.keys[i]]))
              && result.value.messages[i + 1] == Matched(matchers.keys[i], recipient, Min(amount, matchers.amounts[matchers.keys[i]])))
    {
      if amount == 0 {
        return Failure(ZeroAmount);
      }
      if recipient !in commitments {
        return Failure(UnknownRecipient);
      }
      var matchersForThisRecipient := commitments[recipient];
      var transfers := [Transfer(recipient, amount)];
      var messages := [Donated(sender, recipient, amount)];
      var matcherKeysForThisRecipient := matchersForThisRecipient.keys;
      for i := 0 to |matcherKeysForThisRecipient|
        invariant |transfers| == i + 1 && |messages| == i + 1
        invariant transfers[0] == Transfer(recipient, amount)
        invariant messages[0] == Donated(sender, recipient, amount)
        invariant forall j :: 0 <= j < i ==>
          && transfers[j + 1] == Transfer(recipient, Min(amount, matchersForThisRecipient.amounts[matcherKeysForThisRecipient[j]]))
          && messages[j + 1] == Matched(matcherKeysForThisRecipient[j], recipient, Min(amount, matchersForThisRecipient.amounts[matcherKeysForThisRecipient[j]]))
      {
        var matcher := matcherKeysForThisRecipient[i];
        var transfer, message := SendMatchingDonation(matcher, recipient, amount, matchersForThisRecipient);
        transfers := transfers + [transfer];
        messages := messages + [message];
      }
      result := Success(Donation(transfers, messages));
    }
  }
}
