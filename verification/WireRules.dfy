/** The payment rules of backend/watcher/watcher.go on the wire: which bytes under which accounts make a payment. */
module WireRules {
  import opened Text
  import opened Transactions
  import opened Verifiers
  import opened TransferBuilder

  // Bytes

  lemma {:induction false} BytesAreWritten(bytes: seq<Byte>)
    ensures LittleEndian(bytes) < Pow256(|bytes|)
    ensures LittleEndianBytes(LittleEndian(bytes), |bytes|) == bytes
  {
    if bytes != [] {
      BytesAreWritten(bytes[1..]);
      LowByte(bytes[0], LittleEndian(bytes[1..]));
      assert bytes == [bytes[0]] + bytes[1..];
    }
  }

  lemma LowByte(low: Byte, high: nat)
    ensures var n := low as nat + 256 * high; (n % 256) as Byte == low && n / 256 == high
  {
  }

  lemma EightBytesAreWritten(bytes: seq<Byte>)
    requires |bytes| == 8
    ensures LittleEndian(bytes) < TWO_64 && LittleEndianBytes(LittleEndian(bytes), 8) == bytes
  {
    BytesAreWritten(bytes);
    assert Pow256(8) == 256 * Pow256(7) && Pow256(7) == 256 * Pow256(6) && Pow256(6) == 256 * Pow256(5)
        && Pow256(5) == 256 * Pow256(4) && Pow256(4) == 256 * Pow256(3) && Pow256(3) == 256 * Pow256(2)
        && Pow256(2) == 256 * Pow256(1) && Pow256(1) == 256 * Pow256(0);
  }

  // The token program's transfers and the memos

  /** Transfer: source, destination, owner, and any signers after them. */
  ghost predicate IsTransfer(b: Built, destination: Key, owner: Key, units: nat) {
    exists source, signers, tail ::
      b == Built(TOKEN_PROGRAM, [source, destination, owner] + signers, [3] + LittleEndianBytes(units, 8) + tail)
  }

  /** TransferChecked: source, mint, destination, owner, and any signers; the decimals follow the amount. */
  ghost predicate IsTransferChecked(b: Built, destination: Key, owner: Key, units: nat) {
    exists source, mint, signers, tail ::
      b == Built(TOKEN_PROGRAM, [source, mint, destination, owner] + signers, [12] + LittleEndianBytes(units, 8) + tail)
  }

  /** The instruction moves units to the destination account in the name of the owner. */
  ghost predicate Moves(b: Built, destination: Key, owner: Key, units: nat) {
    units < TWO_64 && (IsTransfer(b, destination, owner, units) || IsTransferChecked(b, destination, owner, units))
  }

  ghost predicate IsMemo(b: Built, reference: string) {
    (b.program == MEMO_PROGRAM || b.program == MEMO_PROGRAM_V1) && Contains(GoString(b.data), reference)
  }

  lemma AmountIsRead(opcode: Byte, units: nat, tail: seq<Byte>)
    requires units < TWO_64
    ensures var data := [opcode] + LittleEndianBytes(units, 8) + tail;
            |data| >= 9 && data[0] == opcode && LittleEndian(data[1..9]) == units
  {
    var data := [opcode] + LittleEndianBytes(units, 8) + tail;
    assert data[1..9] == LittleEndianBytes(units, 8);
    EightBytesAreRead(units);
  }

  lemma AmountIsWritten(data: seq<Byte>)
    requires |data| >= 9
    ensures LittleEndian(data[1..9]) < TWO_64
    ensures data == [data[0]] + LittleEndianBytes(LittleEndian(data[1..9]), 8) + data[9..]
  {
    EightBytesAreWritten(data[1..9]);
  }

  lemma TransferReads(b: Built, tx: Transaction, i: nat, d: Key, o: Key, units: nat)
    requires i < |tx.instructions| && CompilesAt(b, tx.keys, tx.instructions[i])
    requires units < TWO_64 && IsTransfer(b, d, o, units)
    ensures TransferAt(tx, i) == Some(Transfer(d, o, units))
  {
    var source, signers, tail :|
      b == Built(TOKEN_PROGRAM, [source, d, o] + signers, [3] + LittleEndianBytes(units, 8) + tail);
    AmountIsRead(3, units, tail);
    assert b.accounts[1] == d && b.accounts[2] == o;
  }

  lemma TransferCheckedReads(b: Built, tx: Transaction, i: nat, d: Key, o: Key, units: nat)
    requires i < |tx.instructions| && CompilesAt(b, tx.keys, tx.instructions[i])
    requires units < TWO_64 && IsTransferChecked(b, d, o, units)
    ensures TransferAt(tx, i) == Some(Transfer(d, o, units))
  {
    var source, mint, signers, tail :|
      b == Built(TOKEN_PROGRAM, [source, mint, d, o] + signers, [12] + LittleEndianBytes(units, 8) + tail);
    AmountIsRead(12, units, tail);
    assert b.accounts[2] == d && b.accounts[3] == o;
  }

  lemma ReadIsTransfer(b: Built, tx: Transaction, i: nat)
    requires i < |tx.instructions| && CompilesAt(b, tx.keys, tx.instructions[i]) && TransferAt(tx, i).Some?
    ensures var t := TransferAt(tx, i).value; Moves(b, t.destination, t.authority, t.amount)
  {
    var t := TransferAt(tx, i).value;
    AmountIsWritten(b.data);
    if b.data[0] == 3 {
      assert b.accounts == [b.accounts[0], t.destination, t.authority] + b.accounts[3..];
      assert IsTransfer(b, t.destination, t.authority, t.amount);
    } else {
      assert b.accounts == [b.accounts[0], b.accounts[1], t.destination, t.authority] + b.accounts[4..];
      assert IsTransferChecked(b, t.destination, t.authority, t.amount);
    }
  }

  /** Under any key table the verifier reads exactly the transfers on the wire. */
  lemma TransferIsOnWire(b: Built, tx: Transaction, i: nat, d: Key, o: Key, units: nat)
    requires i < |tx.instructions| && CompilesAt(b, tx.keys, tx.instructions[i])
    ensures TransferAt(tx, i) == Some(Transfer(d, o, units)) <==> Moves(b, d, o, units)
  {
    if TransferAt(tx, i) == Some(Transfer(d, o, units)) {
      ReadIsTransfer(b, tx, i);
    }
    if Moves(b, d, o, units) {
      if IsTransfer(b, d, o, units) {
        TransferReads(b, tx, i, d, o, units);
      } else {
        TransferCheckedReads(b, tx, i, d, o, units);
      }
    }
  }

  // The rules

  /** Some instruction moves money in this wallet's name. */
  ghost predicate SpendsFor(built: seq<Built>, wallet: string) {
    exists k, d, o, n :: 0 <= k < |built| && Moves(built[k], d, o, n) && o == wallet
  }

  ghost predicate PaysInto(built: seq<Built>, account: Key, units: nat) {
    exists k, o :: 0 <= k < |built| && Moves(built[k], account, o, units)
  }

  ghost predicate Mentions(built: seq<Built>, reference: string) {
    exists k :: 0 <= k < |built| && IsMemo(built[k], reference)
  }

  ghost predicate AllSpendFor(built: seq<Built>, wallet: string) {
    forall k, d, o, n :: 0 <= k < |built| && Moves(built[k], d, o, n) ==> o == wallet
  }

  predicate IsInt64(amount: int) {
    -0x8000_0000_0000_0000 <= amount < 0x8000_0000_0000_0000
  }

  lemma AuthorsAreSpenders(built: seq<Built>, tx: Transaction, wallet: string)
    requires Compiles(built, tx)
    ensures HasAuthor(tx, wallet) <==> SpendsFor(built, wallet)
    ensures OnlyAuthor(tx, wallet) <==> AllSpendFor(built, wallet)
  {
    forall k: nat, d, o, n | k < |built|
      ensures TransferAt(tx, k) == Some(Transfer(d, o, n)) <==> Moves(built[k], d, o, n)
    {
      TransferIsOnWire(built[k], tx, k, d, o, n);
    }
    SomeAuthor(built, tx, wallet);
    EveryAuthor(built, tx, wallet);
  }

  ghost predicate ReadsAlike(built: seq<Built>, tx: Transaction) {
    && |tx.instructions| == |built|
    && forall k: nat, d, o, n | k < |built| :: TransferAt(tx, k) == Some(Transfer(d, o, n)) <==> Moves(built[k], d, o, n)
  }

  lemma SomeAuthor(built: seq<Built>, tx: Transaction, wallet: string)
    requires ReadsAlike(built, tx)
    ensures HasAuthor(tx, wallet) <==> SpendsFor(built, wallet)
  {
    if HasAuthor(tx, wallet) {
      var i: nat :| i < |tx.instructions| && AuthoredAt(tx, i, wallet);
      var t := TransferAt(tx, i).value;
      assert Moves(built[i], t.destination, t.authority, t.amount);
    }
    if SpendsFor(built, wallet) {
      var k: nat, d, o, n :| k < |built| && Moves(built[k], d, o, n) && o == wallet;
      assert TransferAt(tx, k) == Some(Transfer(d, o, n));
      assert AuthoredAt(tx, k, wallet);
    }
  }

  lemma EveryAuthor(built: seq<Built>, tx: Transaction, wallet: string)
    requires ReadsAlike(built, tx)
    ensures OnlyAuthor(tx, wallet) <==> AllSpendFor(built, wallet)
  {
    if AllSpendFor(built, wallet) {
      forall i: nat | i < |tx.instructions| && TransferAt(tx, i).Some?
        ensures AuthoredAt(tx, i, wallet)
      {
        var t := TransferAt(tx, i).value;
        assert Moves(built[i], t.destination, t.authority, t.amount);
      }
    }
    if OnlyAuthor(tx, wallet) {
      forall k: nat, d, o, n | k < |built| && Moves(built[k], d, o, n)
        ensures o == wallet
      {
        assert TransferAt(tx, k) == Some(Transfer(d, o, n));
        assert AuthoredAt(tx, k, wallet);
      }
    }
  }

  lemma PaymentsAreMoves(cfg: Config, built: seq<Built>, tx: Transaction, amount: int, merchant: string)
    requires Compiles(built, tx) && IsInt64(amount)
    ensures HasPayment(cfg, tx, amount, merchant) <==> PaysInto(built, cfg.ata(merchant), amount % TWO_64)
  {
    assert AsUint64(amount) == amount % TWO_64;
    if HasPayment(cfg, tx, amount, merchant) {
      var i :| 0 <= i < |tx.instructions| && PaysAt(cfg, tx, i, amount, merchant);
      var t := TransferAt(tx, i).value;
      TransferIsOnWire(built[i], tx, i, t.destination, t.authority, t.amount);
    }
    if PaysInto(built, cfg.ata(merchant), amount % TWO_64) {
      var k, o :| 0 <= k < |built| && Moves(built[k], cfg.ata(merchant), o, amount % TWO_64);
      TransferIsOnWire(built[k], tx, k, cfg.ata(merchant), o, amount % TWO_64);
      assert PaysAt(cfg, tx, k, amount, merchant);
    }
  }

  lemma MemosAreMentions(built: seq<Built>, tx: Transaction, reference: string)
    requires Compiles(built, tx)
    ensures HasMemo(tx, reference) <==> Mentions(built, reference)
  {
    forall k: nat | k < |built|
      ensures MemoAt(tx, k, reference) <==> IsMemo(built[k], reference)
    {
      assert CompilesAt(built[k], tx.keys, tx.instructions[k]);
    }
    if HasMemo(tx, reference) {
      var i :| 0 <= i < |tx.instructions| && MemoAt(tx, i, reference);
      assert IsMemo(built[i], reference);
    }
    if Mentions(built, reference) {
      var k :| 0 <= k < |built| && IsMemo(built[k], reference);
      assert MemoAt(tx, k, reference);
    }
  }

  /** Both rules as facts about accounts and bytes, for every transaction and every int64 amount: nothing moves in the
      merchant's name, something moves the amount, as an unsigned number, into his token account, and a memo holds the
      reference, or instead everything moves in the sender's name. */
  lemma RulesOnWire(cfg: Config, built: seq<Built>, tx: Transaction, reference: string, amount: int, merchant: string, sender: string)
    requires Compiles(built, tx) && IsInt64(amount)
    ensures var paid := merchant != "" && cfg.mint != "" && !tx.failed && !SpendsFor(built, merchant)
                        && PaysInto(built, cfg.ata(merchant), amount % TWO_64);
            && (Accepts(cfg, tx, reference, amount, merchant) <==> paid && Mentions(built, reference))
            && (AcceptsDirect(cfg, tx, amount, merchant, sender) <==> paid && AllSpendFor(built, sender))
  {
    AuthorsAreSpenders(built, tx, merchant);
    AuthorsAreSpenders(built, tx, sender);
    PaymentsAreMoves(cfg, built, tx, amount, merchant);
    MemosAreMentions(built, tx, reference);
  }

  /** The owner of the last instruction that moves units into the account. */
  ghost predicate LastPayer(built: seq<Built>, account: Key, units: nat, owner: Key) {
    exists k: nat ::
      && k < |built| && Moves(built[k], account, owner, units)
      && forall j: nat, o | k < j < |built| :: !Moves(built[j], account, o, units)
  }

  /** The verifier's whole answer on the wire: the first reason in this order that applies, or else the last payer. */
  lemma VerdictOnWire(cfg: Config, built: seq<Built>, tx: Transaction, reference: string, amount: int, merchant: string, v: Verdict)
    requires Compiles(built, tx) && IsInt64(amount) && RightVerdict(cfg, tx, reference, amount, merchant, v)
    ensures if merchant == "" || cfg.mint == "" then v == Refused(NotConfigured)
            else if tx.failed then v == Refused(FailedOnChain)
            else if SpendsFor(built, merchant) then v == Refused(SelfPayment)
            else if !Mentions(built, reference) then v == Refused(MemoMissing)
            else if !PaysInto(built, cfg.ata(merchant), amount % TWO_64) then v == Refused(TransferMissing)
            else v.Accepted? && LastPayer(built, cfg.ata(merchant), amount % TWO_64, v.sender)
  {
    RulesOnWire(cfg, built, tx, reference, amount, merchant, merchant);
    AuthorsAreSpenders(built, tx, merchant);
    PaymentsAreMoves(cfg, built, tx, amount, merchant);
    MemosAreMentions(built, tx, reference);
    if v.Accepted? {
      var i: nat :| LastPayment(cfg, tx, amount, merchant, |tx.instructions|, i) && TransferAt(tx, i).value.authority == v.sender;
      LastPaymentIsLastMove(cfg, built, tx, amount, merchant, i);
    }
  }

  lemma LastPaymentIsLastMove(cfg: Config, built: seq<Built>, tx: Transaction, amount: int, merchant: string, i: nat)
    requires Compiles(built, tx) && IsInt64(amount) && LastPayment(cfg, tx, amount, merchant, |tx.instructions|, i)
    ensures LastPayer(built, cfg.ata(merchant), amount % TWO_64, TransferAt(tx, i).value.authority)
  {
    var account, units := cfg.ata(merchant), amount % TWO_64;
    assert AsUint64(amount) == units;
    TransferIsOnWire(built[i], tx, i, account, TransferAt(tx, i).value.authority, units);
    forall j: nat, o | i < j < |built|
      ensures !Moves(built[j], account, o, units)
    {
      TransferIsOnWire(built[j], tx, j, account, o, units);
      assert !PaysAt(cfg, tx, j, amount, merchant);
    }
  }

  // One transfer among other instructions

  /** The only token instruction is the one at k, and it moves units to the account in the owner's name. */
  ghost predicate OneMove(built: seq<Built>, k: nat, account: Key, owner: Key, units: nat) {
    && k < |built| && Moves(built[k], account, owner, units)
    && forall j | 0 <= j < |built| && j != k :: built[j].program != TOKEN_PROGRAM
  }

  lemma MoveIsUnique(built: seq<Built>, tx: Transaction, k: nat, account: Key, owner: Key, units: nat)
    requires Compiles(built, tx) && OneMove(built, k, account, owner, units)
    ensures forall j, d, o, n :: 0 <= j < |built| && Moves(built[j], d, o, n) ==> j == k && d == account && o == owner && n == units
    ensures TransferAt(tx, k) == Some(Transfer(account, owner, units))
  {
    TransferIsOnWire(built[k], tx, k, account, owner, units);
    forall j, d, o, n | 0 <= j < |built| && Moves(built[j], d, o, n)
      ensures j == k && d == account && o == owner && n == units
    {
      if j == k {
        TransferIsOnWire(built[k], tx, k, d, o, n);
      }
    }
  }

  /** A transaction with one transfer, of either kind, is accepted exactly when that goes into the merchant's token account,
      its amount is right, its owner is not the merchant, and one of the memos, of either program, holds the reference. The
      owner is the reported sender. Source, mint, decimals, signers and the other instructions play no part. */
  lemma OneTransferIsAccepted(cfg: Config, built: seq<Built>, tx: Transaction, k: nat, account: Key, owner: Key, units: nat,
                              reference: string, amount: int, merchant: Key, v: Verdict)
    requires Compiles(built, tx) && OneMove(built, k, account, owner, units) && IsInt64(amount) && cfg.mint != "" && !tx.failed
    requires RightVerdict(cfg, tx, reference, amount, merchant, v)
    ensures v.Accepted? <==>
              owner != merchant && account == cfg.ata(merchant) && units == amount % TWO_64 && Mentions(built, reference)
    ensures v.Accepted? ==> v.sender == owner
  {
    MoveIsUnique(built, tx, k, account, owner, units);
    RulesOnWire(cfg, built, tx, reference, amount, merchant, owner);
    if v.Accepted? {
      var i: nat :| LastPayment(cfg, tx, amount, merchant, |tx.instructions|, i) && TransferAt(tx, i).value.authority == v.sender;
      var t := TransferAt(tx, i).value;
      TransferIsOnWire(built[i], tx, i, t.destination, t.authority, t.amount);
    }
    if owner != merchant && account == cfg.ata(merchant) && units == amount % TWO_64 && Mentions(built, reference) {
      assert !SpendsFor(built, merchant);
      assert PaysInto(built, cfg.ata(merchant), amount % TWO_64);
    }
  }

  /** The direct verifier accepts it, without a memo, exactly for its owner. */
  lemma OneTransferIsAcceptedDirectly(cfg: Config, built: seq<Built>, tx: Transaction, k: nat, account: Key, owner: Key, units: nat,
                                      amount: int, merchant: Key, sender: Key, v: Verdict)
    requires Compiles(built, tx) && OneMove(built, k, account, owner, units) && IsInt64(amount) && cfg.mint != "" && !tx.failed
    requires RightDirectVerdict(cfg, tx, amount, merchant, sender, v)
    ensures v.Accepted? <==> owner == sender && owner != merchant && account == cfg.ata(merchant) && units == amount % TWO_64
    ensures v == Refused(SelfPayment) <==> owner == merchant
    ensures v == Refused(SenderMismatch) <==> owner != merchant && owner != sender
  {
    MoveIsUnique(built, tx, k, account, owner, units);
    RulesOnWire(cfg, built, tx, "", amount, merchant, sender);
    assert AuthoredAt(tx, k, merchant) <==> owner == merchant;
    assert AuthoredAt(tx, k, sender) <==> owner == sender;
    forall j | 0 <= j < |tx.instructions| && TransferAt(tx, j).Some?
      ensures j == k
    {
      var t := TransferAt(tx, j).value;
      TransferIsOnWire(built[j], tx, j, t.destination, t.authority, t.amount);
    }
    if owner == merchant || owner != sender {
      assert FirstOffence(tx, merchant, sender, k);
    } else {
      assert PaysInto(built, account, units);
      assert PaysInto(built, cfg.ata(merchant), amount % TWO_64) <==> account == cfg.ata(merchant) && units == amount % TWO_64;
    }
  }

  /** So a TransferChecked of any source, mint and decimals, with a memo after or before it, under either memo program. */
  lemma CheckedPaymentIsAccepted(cfg: Config, source: Key, mint: Key, payer: Key, merchant: Key, units: nat, decimals: Byte,
                                 memoProgram: Key, memo: seq<Byte>, memoFirst: bool, tx: Transaction, reference: string, amount: int,
                                 v: Verdict)
    requires cfg.mint != "" && !tx.failed && units < TWO_64 && IsInt64(amount)
    requires memoProgram == MEMO_PROGRAM || memoProgram == MEMO_PROGRAM_V1
    requires var move := Built(TOKEN_PROGRAM, [source, mint, cfg.ata(merchant), payer], [12] + LittleEndianBytes(units, 8) + [decimals]);
             var note := Built(memoProgram, [payer], memo);
             Compiles(if memoFirst then [note, move] else [move, note], tx)
    requires RightVerdict(cfg, tx, reference, amount, merchant, v)
    ensures v == Accepted(payer) <==> payer != merchant && units == amount % TWO_64 && Contains(GoString(memo), reference)
    ensures v.Accepted? ==> v.sender == payer
  {
    var move := Built(TOKEN_PROGRAM, [source, mint, cfg.ata(merchant), payer], [12] + LittleEndianBytes(units, 8) + [decimals]);
    var note := Built(memoProgram, [payer], memo);
    CheckedMoves(source, mint, cfg.ata(merchant), payer, units, decimals);
    MoveAndMemo(move, note, memoFirst, cfg.ata(merchant), payer, units, reference);
    OneTransferIsAccepted(cfg, if memoFirst then [note, move] else [move, note], tx, if memoFirst then 1 else 0,
                          cfg.ata(merchant), payer, units, reference, amount, merchant, v);
  }

  lemma CheckedMoves(source: Key, mint: Key, account: Key, owner: Key, units: nat, decimals: Byte)
    requires units < TWO_64
    ensures var b := Built(TOKEN_PROGRAM, [source, mint, account, owner], [12] + LittleEndianBytes(units, 8) + [decimals]);
            Moves(b, account, owner, units)
  {
    var signers: seq<Key> := [];
    assert [source, mint, account, owner] == [source, mint, account, owner] + signers;
    assert IsTransferChecked(Built(TOKEN_PROGRAM, [source, mint, account, owner], [12] + LittleEndianBytes(units, 8) + [decimals]),
                             account, owner, units);
  }

  lemma MoveAndMemo(move: Built, note: Built, memoFirst: bool, account: Key, owner: Key, units: nat, reference: string)
    requires move.program == TOKEN_PROGRAM && Moves(move, account, owner, units)
    requires note.program == MEMO_PROGRAM || note.program == MEMO_PROGRAM_V1
    ensures var built := if memoFirst then [note, move] else [move, note];
            && OneMove(built, if memoFirst then 1 else 0, account, owner, units)
            && (Mentions(built, reference) <==> Contains(GoString(note.data), reference))
  {
    var built, k := if memoFirst then [note, move] else [move, note], if memoFirst then 1 else 0;
    ProgramsDiffer();
    assert IsMemo(built[1 - k], reference) <==> Contains(GoString(note.data), reference);
    assert !IsMemo(built[k], reference);
  }
}
