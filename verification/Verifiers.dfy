/** The transaction verifiers of backend/watcher/watcher.go: loops over instructions, and the rules they decide. */
module Verifiers {
  import opened Text
  import opened Transactions

  datatype Reason = NotConfigured | NotFound | FailedOnChain | SelfPayment | SenderMismatch | MemoMissing | TransferMissing

  datatype Verdict = Accepted(sender: Key) | Refused(reason: Reason)

  /** The last instruction below n that pays; its authority is the sender. */
  ghost predicate LastPayment(cfg: Config, tx: Transaction, amount: int, merchant: string, n: nat, i: nat) {
    && i < n <= |tx.instructions|
    && PaysAt(cfg, tx, i, amount, merchant)
    && forall j | i < j < n :: !PaysAt(cfg, tx, j, amount, merchant)
  }

  ghost predicate SenderIs(cfg: Config, tx: Transaction, amount: int, merchant: string, sender: Key) {
    exists i :: LastPayment(cfg, tx, amount, merchant, |tx.instructions|, i) && TransferAt(tx, i).value.authority == sender
  }

  /** What the referenced verifier has to answer for a transaction. */
  ghost predicate RightVerdict(cfg: Config, tx: Transaction, reference: string, amount: int, merchant: string, v: Verdict) {
    match v
    case Accepted(sender) =>
      Accepts(cfg, tx, reference, amount, merchant) && SenderIs(cfg, tx, amount, merchant, sender)
    case Refused(reason) =>
      match reason
      case NotConfigured => !Configured(cfg, merchant)
      case FailedOnChain => Configured(cfg, merchant) && tx.failed
      case SelfPayment => Configured(cfg, merchant) && !tx.failed && HasAuthor(tx, merchant)
      case MemoMissing => Configured(cfg, merchant) && !tx.failed && !HasAuthor(tx, merchant) && !HasMemo(tx, reference)
      case TransferMissing =>
        && Configured(cfg, merchant) && !tx.failed && !HasAuthor(tx, merchant) && HasMemo(tx, reference)
        && !HasPayment(cfg, tx, amount, merchant)
      case NotFound => false
      case SenderMismatch => false
  }

  /** The answer is unique, so it is a function of the transaction. */
  lemma VerdictIsUnique(cfg: Config, tx: Transaction, reference: string, amount: int, merchant: string, v: Verdict, w: Verdict)
    requires RightVerdict(cfg, tx, reference, amount, merchant, v) && RightVerdict(cfg, tx, reference, amount, merchant, w)
    ensures v == w
  {
    if v.Accepted? {
      var i :| LastPayment(cfg, tx, amount, merchant, |tx.instructions|, i) && TransferAt(tx, i).value.authority == v.sender;
      var j :| LastPayment(cfg, tx, amount, merchant, |tx.instructions|, j) && TransferAt(tx, j).value.authority == w.sender;
      assert i == j;
    }
  }

  /** An accepted transaction is accepted whatever its instruction order. */
  lemma OrderIsIrrelevant(cfg: Config, tx: Transaction, ty: Transaction, reference: string, amount: int, merchant: string, sender: string)
    requires tx.failed == ty.failed && tx.keys == ty.keys
    requires multiset(tx.instructions) == multiset(ty.instructions)
    ensures Accepts(cfg, tx, reference, amount, merchant) == Accepts(cfg, ty, reference, amount, merchant)
    ensures AcceptsDirect(cfg, tx, amount, merchant, sender) == AcceptsDirect(cfg, ty, amount, merchant, sender)
  {
    SameInstructions(cfg, tx, ty, reference, amount, merchant, sender);
    SameInstructions(cfg, ty, tx, reference, amount, merchant, sender);
  }

  lemma SameInstructions(cfg: Config, tx: Transaction, ty: Transaction, reference: string, amount: int, merchant: string, sender: string)
    requires tx.keys == ty.keys
    requires multiset(tx.instructions) == multiset(ty.instructions)
    ensures HasMemo(tx, reference) ==> HasMemo(ty, reference)
    ensures HasAuthor(tx, merchant) ==> HasAuthor(ty, merchant)
    ensures HasPayment(cfg, tx, amount, merchant) ==> HasPayment(cfg, ty, amount, merchant)
    ensures OnlyAuthor(ty, sender) ==> OnlyAuthor(tx, sender)
  {
    forall i | 0 <= i < |tx.instructions|
      ensures exists j :: 0 <= j < |ty.instructions| && TransferAt(ty, j) == TransferAt(tx, i)
                          && MemoAt(ty, j, reference) == MemoAt(tx, i, reference)
                          && AuthoredAt(ty, j, merchant) == AuthoredAt(tx, i, merchant)
                          && PaysAt(cfg, ty, j, amount, merchant) == PaysAt(cfg, tx, i, amount, merchant)
    {
      assert tx.instructions[i] in multiset(tx.instructions);
      assert tx.instructions[i] in ty.instructions;
      var j :| 0 <= j < |ty.instructions| && ty.instructions[j] == tx.instructions[i];
      assert TransferAt(ty, j) == TransferAt(tx, i);
    }
  }

  /** Given the memo, the direct verifier accepts a sender exactly when the referenced one accepts
      and that sender authorised every transfer. */
  lemma DirectIsReferencedBySender(cfg: Config, tx: Transaction, reference: string, amount: int, merchant: string, sender: Key)
    requires HasMemo(tx, reference)
    ensures AcceptsDirect(cfg, tx, amount, merchant, sender)
       <==> Accepts(cfg, tx, reference, amount, merchant) && OnlyAuthor(tx, sender)
    ensures AcceptsDirect(cfg, tx, amount, merchant, sender) ==> SenderIs(cfg, tx, amount, merchant, sender)
  {
    if AcceptsDirect(cfg, tx, amount, merchant, sender) {
      var i :| 0 <= i < |tx.instructions| && PaysAt(cfg, tx, i, amount, merchant);
      var k := LastPaymentExists(cfg, tx, amount, merchant, i, |tx.instructions|);
      assert AuthoredAt(tx, k, sender);
    }
  }

  lemma {:induction false} LastPaymentExists(cfg: Config, tx: Transaction, amount: int, merchant: string, i: nat, n: nat) returns (k: nat)
    requires i < n <= |tx.instructions| && PaysAt(cfg, tx, i, amount, merchant)
    ensures LastPayment(cfg, tx, amount, merchant, n, k)
  {
    if PaysAt(cfg, tx, n - 1, amount, merchant) {
      k := n - 1;
    } else {
      k := LastPaymentExists(cfg, tx, amount, merchant, i, n - 1);
    }
  }

  /** VerifyTransactionForMerchantWithSender, on the transaction the node returned. */
  method VerifyMessage(cfg: Config, tx: Transaction, reference: string, amount: int, merchant: string) returns (v: Verdict)
    ensures RightVerdict(cfg, tx, reference, amount, merchant, v)
  {
    if merchant == "" || cfg.mint == "" {
      return Refused(NotConfigured);
    }
    if tx.failed {
      return Refused(FailedOnChain);
    }
    var merchantAta := cfg.ata(merchant);
    var memoFound, transferFound, senderWallet := false, false, "";
    for i := 0 to |tx.instructions|
      invariant Seen(cfg, tx, reference, amount, merchant, i, memoFound, transferFound, senderWallet)
    {
      OneMoreSeen(cfg, tx, reference, amount, merchant, i, memoFound, transferFound, senderWallet);
      var ins := tx.instructions[i];
      if ins.program >= |tx.keys| {
        continue;
      }
      var programID := tx.keys[ins.program];
      if programID == MEMO_PROGRAM || programID == MEMO_PROGRAM_V1 {
        if Contains(GoString(ins.data), reference) {
          memoFound := true;
        }
      }
      if programID == TOKEN_PROGRAM {
        if |ins.data| == 0 {
          continue;
        }
        if ins.data[0] == 3 && |ins.data| >= 9 {
          if |ins.accounts| < 3 {
            continue;
          }
          var value := LittleEndian(ins.data[1..9]);
          var destKey, ownerKey := tx.keys[ins.accounts[1]], tx.keys[ins.accounts[2]];
          if ownerKey == merchant {
            assert AuthoredAt(tx, i, merchant);
            return Refused(SelfPayment);
          }
          if destKey == merchantAta && value == AsUint64(amount) {
            transferFound, senderWallet := true, ownerKey;
          }
        } else if ins.data[0] == 12 && |ins.data| >= 9 {
          if |ins.accounts| < 4 {
            continue;
          }
          var value := LittleEndian(ins.data[1..9]);
          var destKey, ownerKey := tx.keys[ins.accounts[2]], tx.keys[ins.accounts[3]];
          if ownerKey == merchant {
            assert AuthoredAt(tx, i, merchant);
            return Refused(SelfPayment);
          }
          if destKey == merchantAta && value == AsUint64(amount) {
            transferFound, senderWallet := true, ownerKey;
          }
        }
      }
    }
    AllSeen(cfg, tx, reference, amount, merchant, memoFound, transferFound, senderWallet);
    if !memoFound {
      return Refused(MemoMissing);
    }
    if !transferFound {
      return Refused(TransferMissing);
    }
    // A transfer's authority is never the empty key, so the fallback to the signers is dead code.
    assert senderWallet != "";
    v := Accepted(senderWallet);
  }

  /** What the loop knows after its first n instructions. */
  ghost predicate Seen(cfg: Config, tx: Transaction, reference: string, amount: int, merchant: string, n: nat, memoFound: bool,
                       transferFound: bool, senderWallet: string)
    requires n <= |tx.instructions|
  {
    && (memoFound <==> exists k :: 0 <= k < n && MemoAt(tx, k, reference))
    && (forall k | 0 <= k < n :: !AuthoredAt(tx, k, merchant))
    && (!transferFound ==> forall k | 0 <= k < n :: !PaysAt(cfg, tx, k, amount, merchant))
    && (transferFound ==>
          exists k :: LastPayment(cfg, tx, amount, merchant, n, k) && TransferAt(tx, k).value.authority == senderWallet)
  }

  lemma OneMoreSeen(cfg: Config, tx: Transaction, reference: string, amount: int, merchant: string, n: nat, memoFound: bool,
                    transferFound: bool, senderWallet: string)
    requires n < |tx.instructions| && Seen(cfg, tx, reference, amount, merchant, n, memoFound, transferFound, senderWallet)
    ensures var pays := PaysAt(cfg, tx, n, amount, merchant);
            !AuthoredAt(tx, n, merchant) ==>
              Seen(cfg, tx, reference, amount, merchant, n + 1, memoFound || MemoAt(tx, n, reference), transferFound || pays,
                   if pays then TransferAt(tx, n).value.authority else senderWallet)
  {
    if PaysAt(cfg, tx, n, amount, merchant) {
      assert LastPayment(cfg, tx, amount, merchant, n + 1, n);
    } else if k :| transferFound && LastPayment(cfg, tx, amount, merchant, n, k) && TransferAt(tx, k).value.authority == senderWallet {
      assert LastPayment(cfg, tx, amount, merchant, n + 1, k);
    }
  }

  /** What the loop has found decides the verdict. */
  lemma AllSeen(cfg: Config, tx: Transaction, reference: string, amount: int, merchant: string, memoFound: bool,
                transferFound: bool, senderWallet: string)
    requires Configured(cfg, merchant) && !tx.failed
    requires Seen(cfg, tx, reference, amount, merchant, |tx.instructions|, memoFound, transferFound, senderWallet)
    ensures RightVerdict(cfg, tx, reference, amount, merchant,
                         if !memoFound then Refused(MemoMissing)
                         else if !transferFound then Refused(TransferMissing) else Accepted(senderWallet))
    ensures transferFound ==> senderWallet != ""
  {
  }

  /** What the direct verifier has to answer: the first offending transfer decides the error. */
  ghost predicate FirstOffence(tx: Transaction, merchant: string, sender: string, i: nat) {
    && i < |tx.instructions|
    && TransferAt(tx, i).Some?
    && (AuthoredAt(tx, i, merchant) || !AuthoredAt(tx, i, sender))
    && forall j | 0 <= j < i :: TransferAt(tx, j).Some? ==> !AuthoredAt(tx, j, merchant) && AuthoredAt(tx, j, sender)
  }

  ghost predicate RightDirectVerdict(cfg: Config, tx: Transaction, amount: int, merchant: string, sender: Key, v: Verdict) {
    match v
    case Accepted(s) => s == sender && AcceptsDirect(cfg, tx, amount, merchant, sender)
    case Refused(reason) =>
      match reason
      case NotConfigured => !Configured(cfg, merchant)
      case FailedOnChain => Configured(cfg, merchant) && tx.failed
      case SelfPayment =>
        Configured(cfg, merchant) && !tx.failed && exists i :: FirstOffence(tx, merchant, sender, i) && AuthoredAt(tx, i, merchant)
      case SenderMismatch =>
        Configured(cfg, merchant) && !tx.failed && exists i :: FirstOffence(tx, merchant, sender, i) && !AuthoredAt(tx, i, merchant)
      case TransferMissing =>
        && Configured(cfg, merchant) && !tx.failed && !HasAuthor(tx, merchant) && OnlyAuthor(tx, sender)
        && !HasPayment(cfg, tx, amount, merchant)
      case NotFound => false
      case MemoMissing => false
  }

  lemma DirectVerdictIsUnique(cfg: Config, tx: Transaction, amount: int, merchant: string, sender: Key, v: Verdict, w: Verdict)
    requires RightDirectVerdict(cfg, tx, amount, merchant, sender, v) && RightDirectVerdict(cfg, tx, amount, merchant, sender, w)
    ensures v == w
  {
    if exists i :: FirstOffence(tx, merchant, sender, i) {
      var i :| FirstOffence(tx, merchant, sender, i);
      assert forall j :: FirstOffence(tx, merchant, sender, j) ==> j == i;
      assert !OnlyAuthor(tx, sender) || HasAuthor(tx, merchant);
    }
  }

  /** VerifyDirectTransferForMerchant, on the transaction the node returned. */
  method VerifyDirectMessage(cfg: Config, tx: Transaction, amount: int, merchant: string, sender: Key) returns (v: Verdict)
    ensures RightDirectVerdict(cfg, tx, amount, merchant, sender, v)
  {
    if merchant == "" || cfg.mint == "" {
      return Refused(NotConfigured);
    }
    if tx.failed {
      return Refused(FailedOnChain);
    }
    var merchantAta := cfg.ata(merchant);
    var transferFound := false;
    for i := 0 to |tx.instructions|
      invariant forall k | 0 <= k < i :: TransferAt(tx, k).Some? ==> !AuthoredAt(tx, k, merchant) && AuthoredAt(tx, k, sender)
      invariant transferFound <==> exists k :: 0 <= k < i && PaysAt(cfg, tx, k, amount, merchant)
    {
      var ins := tx.instructions[i];
      if ins.program >= |tx.keys| {
        continue;
      }
      if tx.keys[ins.program] != TOKEN_PROGRAM || |ins.data| == 0 {
        continue;
      }
      if ins.data[0] == 3 && |ins.data| >= 9 {
        if |ins.accounts| < 3 {
          continue;
        }
        var value := LittleEndian(ins.data[1..9]);
        var destKey, ownerKey := tx.keys[ins.accounts[1]], tx.keys[ins.accounts[2]];
        if ownerKey == merchant {
          assert FirstOffence(tx, merchant, sender, i);
          return Refused(SelfPayment);
        }
        if ownerKey != sender {
          assert FirstOffence(tx, merchant, sender, i);
          return Refused(SenderMismatch);
        }
        if destKey == merchantAta && value == AsUint64(amount) {
          assert PaysAt(cfg, tx, i, amount, merchant);
          transferFound := true;
        }
      } else if ins.data[0] == 12 && |ins.data| >= 9 {
        if |ins.accounts| < 4 {
          continue;
        }
        var value := LittleEndian(ins.data[1..9]);
        var destKey, ownerKey := tx.keys[ins.accounts[2]], tx.keys[ins.accounts[3]];
        if ownerKey == merchant {
          assert FirstOffence(tx, merchant, sender, i);
          return Refused(SelfPayment);
        }
        if ownerKey != sender {
          assert FirstOffence(tx, merchant, sender, i);
          return Refused(SenderMismatch);
        }
        if destKey == merchantAta && value == AsUint64(amount) {
          assert PaysAt(cfg, tx, i, amount, merchant);
          transferFound := true;
        }
      }
    }
    if !transferFound {
      return Refused(TransferMissing);
    }
    v := Accepted(sender);
  }

  /** Some answer is right, so the verifier can be used as a function of the node's view. */
  lemma VerdictExists(cfg: Config, tx: Transaction, reference: string, amount: int, merchant: string)
    ensures exists v :: RightVerdict(cfg, tx, reference, amount, merchant, v)
  {
    if Accepts(cfg, tx, reference, amount, merchant) {
      var i :| 0 <= i < |tx.instructions| && PaysAt(cfg, tx, i, amount, merchant);
      var k := LastPaymentExists(cfg, tx, amount, merchant, i, |tx.instructions|);
      assert RightVerdict(cfg, tx, reference, amount, merchant, Accepted(TransferAt(tx, k).value.authority));
    } else {
      assert RightVerdict(cfg, tx, reference, amount, merchant, Refused(
        if !Configured(cfg, merchant) then NotConfigured
        else if tx.failed then FailedOnChain
        else if HasAuthor(tx, merchant) then SelfPayment
        else if !HasMemo(tx, reference) then MemoMissing
        else TransferMissing));
    }
  }

  /** The verifier's answer for a signature, given what the node answers for it. */
  ghost function VerdictFor(cfg: Config, rpc: Rpc, reference: string, signature: string, amount: int, merchant: string): (v: Verdict)
    ensures v.Accepted? <==>
            signature in rpc.transactions && Accepts(cfg, rpc.transactions[signature], reference, amount, merchant)
    ensures if !Configured(cfg, merchant) then v == Refused(NotConfigured)
            else if signature !in rpc.transactions then v == Refused(NotFound)
            else RightVerdict(cfg, rpc.transactions[signature], reference, amount, merchant, v)
  {
    if !Configured(cfg, merchant) then Refused(NotConfigured)
    else if signature !in rpc.transactions then Refused(NotFound)
    else
      var tx := rpc.transactions[signature];
      VerdictExists(cfg, tx, reference, amount, merchant);
      var v :| RightVerdict(cfg, tx, reference, amount, merchant, v);
      v
  }

  method VerifySignature(cfg: Config, rpc: Rpc, reference: string, signature: string, amount: int, merchant: string) returns (v: Verdict)
    ensures v == VerdictFor(cfg, rpc, reference, signature, amount, merchant)
  {
    if merchant == "" || cfg.mint == "" {
      return Refused(NotConfigured);
    }
    if signature !in rpc.transactions {
      return Refused(NotFound);
    }
    v := VerifyMessage(cfg, rpc.transactions[signature], reference, amount, merchant);
    VerdictIsUnique(cfg, rpc.transactions[signature], reference, amount, merchant, v,
                    VerdictFor(cfg, rpc, reference, signature, amount, merchant));
  }

  /** The direct verifier's answer, likewise. */
  ghost predicate DirectlyAccepted(cfg: Config, rpc: Rpc, signature: string, amount: int, merchant: string, sender: string) {
    signature in rpc.transactions && AcceptsDirect(cfg, rpc.transactions[signature], amount, merchant, sender)
  }

  method VerifyDirectSignature(cfg: Config, rpc: Rpc, signature: string, amount: int, merchant: string, sender: Key) returns (ok: bool)
    ensures ok == DirectlyAccepted(cfg, rpc, signature, amount, merchant, sender)
  {
    if merchant == "" || cfg.mint == "" {
      return false;
    }
    if signature !in rpc.transactions {
      return false;
    }
    var v := VerifyDirectMessage(cfg, rpc.transactions[signature], amount, merchant, sender);
    ok := v.Accepted?;
  }

  datatype Detection = Found(signature: string, sender: Key) | NotDetected

  /** The listed signature at index i names the reference and verifies. */
  ghost predicate DetectableAt(cfg: Config, rpc: Rpc, reference: string, amount: int, merchant: string, i: nat) {
    && i < |rpc.listing|
    && rpc.listing[i].memo.Some?
    && Contains(rpc.listing[i].memo.value, reference)
    && VerdictFor(cfg, rpc, reference, rpc.listing[i].signature, amount, merchant).Accepted?
  }

  /** The first detectable signature from index i on. */
  ghost function DetectFrom(cfg: Config, rpc: Rpc, reference: string, amount: int, merchant: string, i: nat): Detection
    decreases |rpc.listing| - i
  {
    if i >= |rpc.listing| then NotDetected
    else if DetectableAt(cfg, rpc, reference, amount, merchant, i) then
      var signature := rpc.listing[i].signature;
      Found(signature, VerdictFor(cfg, rpc, reference, signature, amount, merchant).sender)
    else DetectFrom(cfg, rpc, reference, amount, merchant, i + 1)
  }

  /** Index k is the first detectable one from i on. */
  ghost predicate FirstDetectable(cfg: Config, rpc: Rpc, reference: string, amount: int, merchant: string, i: nat, k: nat) {
    && DetectableAt(cfg, rpc, reference, amount, merchant, k)
    && forall j: nat | i <= j < k :: !DetectableAt(cfg, rpc, reference, amount, merchant, j)
  }

  /** A detection is the first listed signature that verifies, with its sender; no detection means there is none. */
  lemma {:induction false} DetectionIsVerified(cfg: Config, rpc: Rpc, reference: string, amount: int, merchant: string, i: nat)
    ensures match DetectFrom(cfg, rpc, reference, amount, merchant, i)
            case Found(signature, sender) =>
              && VerdictFor(cfg, rpc, reference, signature, amount, merchant) == Accepted(sender)
              && exists k :: i <= k && FirstDetectable(cfg, rpc, reference, amount, merchant, i, k) && rpc.listing[k].signature == signature
            case NotDetected =>
              forall k | i <= k :: !DetectableAt(cfg, rpc, reference, amount, merchant, k)
    decreases |rpc.listing| - i
  {
    if i < |rpc.listing| && !DetectableAt(cfg, rpc, reference, amount, merchant, i) {
      DetectionIsVerified(cfg, rpc, reference, amount, merchant, i + 1);
    }
  }

  /** DetectSignatureByReferenceForMerchant */
  method DetectSignature(cfg: Config, rpc: Rpc, reference: string, amount: int, merchant: string) returns (d: Detection)
    ensures d == DetectFrom(cfg, rpc, reference, amount, merchant, 0)
  {
    if merchant == "" || cfg.mint == "" {
      DetectionIsVerified(cfg, rpc, reference, amount, merchant, 0);
      return NotDetected;
    }
    for i := 0 to |rpc.listing|
      invariant DetectFrom(cfg, rpc, reference, amount, merchant, 0) == DetectFrom(cfg, rpc, reference, amount, merchant, i)
    {
      var listed := rpc.listing[i];
      if listed.memo.None? {
        continue;
      }
      if !Contains(listed.memo.value, reference) {
        continue;
      }
      var v := VerifySignature(cfg, rpc, reference, listed.signature, amount, merchant);
      if v.Accepted? {
        return Found(listed.signature, v.sender);
      }
    }
    d := NotDetected;
  }
}
