/** createUsdcTransfer of frontend/src/lib/solana.ts, the printed price it starts from, and the verifier that has to
    accept what it builds. Floating point is any rounding that is idempotent and exact on small integers. */
module TransferBuilder {
  import opened Text
  import opened Decimal
  import opened Transactions
  import opened Verifiers

  // The printed price

  function Pow10(n: nat): nat
    ensures Pow10(n) > 0
  {
    if n == 0 then 1 else 10 * Pow10(n - 1)
  }

  /** The nearest integer, a tie going to the even one. */
  function Nearest(x: real): int {
    var down := x.Floor;
    var rest := x - down as real;
    if rest < 0.5 || (rest == 0.5 && down % 2 == 0) then down else down + 1
  }

  /** fmt.Sprintf("%.2f", x) */
  function Fixed2(x: real): string {
    if x < 0.0 then "-" + Cents(Nearest(-x * 100.0)) else Cents(Nearest(x * 100.0))
  }

  function Cents(cents: nat): string {
    Digits(cents / 100) + "." + [Digit(cents / 10 % 10), Digit(cents % 10)]
  }

  /** The value of the numeral digits.digits that Number(text) reads. */
  function Numeral(text: string): Option<real> {
    if exists i | 0 <= i < |text| :: PointAt(text, i) then
      var i := PointOf(text, |text|);
      var digits := text[..i] + text[i + 1..];
      Some(ValueOf(digits) as real / Pow10(|text| - i - 1) as real)
    else None
  }

  predicate PointAt(text: string, i: nat)
    requires i < |text|
  {
    text[i] == '.' && AllDigits(text[..i]) && AllDigits(text[i + 1..]) && i > 0
  }

  function PointOf(text: string, n: nat): (i: nat)
    requires n <= |text| && exists k | 0 <= k < n :: PointAt(text, k)
    ensures i < n && PointAt(text, i)
  {
    if PointAt(text, n - 1) then n - 1 else PointOf(text, n - 1)
  }

  lemma WholePriceIsPrinted(n: nat)
    ensures Fixed2(n as real) == Digits(n) + "." + "00"
  {
    HundredfoldIsWhole(n);
    FixedIsCents(n as real, 100 * n);
    WholeCents(n);
  }

  lemma FixedIsCents(x: real, cents: nat)
    requires x >= 0.0 && Nearest(x * 100.0) == cents
    ensures Fixed2(x) == Cents(cents)
  {
  }

  lemma HundredfoldIsWhole(n: nat)
    ensures n as real >= 0.0 && Nearest(n as real * 100.0) == 100 * n
  {
    var x := n as real * 100.0;
    assert x == (100 * n) as real;
    assert x.Floor == 100 * n;
  }

  lemma WholeCents(n: nat)
    ensures Cents(100 * n) == Digits(n) + "." + "00"
  {
    var c := 100 * n;
    assert c / 100 == n && c % 10 == 0;
    assert c / 10 == 10 * n && c / 10 % 10 == 0;
    assert [Digit(c / 10 % 10), Digit(c % 10)] == "00";
  }

  lemma TwoZerosMultiply(w: string)
    requires AllDigits(w)
    ensures AllDigits(w + "00") && ValueOf(w + "00") == 100 * ValueOf(w)
  {
    assert (w + "00")[..|w| + 1] == w + "0" && (w + "0")[..|w|] == w;
    assert ValueOf(w + "0") == 10 * ValueOf(w);
  }

  lemma PointIsAfterDigits(w: string)
    requires AllDigits(w) && w != []
    ensures var text := w + "." + "00";
            PointAt(text, |w|) && PointOf(text, |text|) == |w| && text[..|w|] == w && text[|w| + 1..] == "00"
  {
    var text := w + "." + "00";
    assert text[..|w|] == w && text[|w| + 1..] == "00";
    assert PointAt(text, |w|);
    var j := PointOf(text, |text|);
    assert forall k | 0 <= k < |w| :: text[k] == w[k];
    assert j >= |w|;
  }

  /** A price in whole dollars reads back as itself. */
  lemma PrintedPriceReadsBack(n: nat)
    ensures Numeral(Fixed2(n as real)) == Some(n as real)
  {
    WholePriceIsPrinted(n);
    DigitsAreRead(n);
    PointIsAfterDigits(Digits(n));
    TwoZerosMultiply(Digits(n));
    assert Pow10(2) == 10 * Pow10(1) && Pow10(1) == 10 * Pow10(0);
    assert (100 * n) as real / 100.0 == n as real;
  }

  // Doubles

  const TWO_53: int := 0x20_0000_0000_0000

  /** Rounding to the nearest double: a double is its own rounding, and integers up to 2^53 are doubles. */
  ghost predicate Rounding(fl: real -> real) {
    && (forall x :: fl(fl(x)) == fl(x))
    && (forall x: real :: x == x.Floor as real && -TWO_53 <= x.Floor <= TWO_53 ==> fl(x) == x)
  }

  /** The amount text of the public event page. */
  function ShownPrice(fl: real -> real, raw: int): string {
    Fixed2(fl(fl(raw as real) / 1_000_000.0))
  }

  /** amount * 1_000_000 as a BigInt, which a number with a fraction refuses to become. */
  function Units(fl: real -> real, amount: real): Option<int> {
    var units := fl(amount * 1_000_000.0);
    if units == units.Floor as real then Some(units.Floor) else None
  }

  /** From the stored amount, over the printed price, to the amount the transfer names. */
  function UnitsSent(fl: real -> real, raw: int): Option<int> {
    match Numeral(ShownPrice(fl, raw))
    case None => None
    case Some(x) => Units(fl, fl(x))
  }

  /** The amount survives the trip exactly when it is a double itself. */
  lemma AmountSurvivesIff(fl: real -> real, dollars: int)
    requires Rounding(fl) && 1 <= dollars && dollars * 1_000_000 < 0x8000_0000_0000_0000
    ensures var raw := dollars * 1_000_000;
            UnitsSent(fl, raw) == Some(raw) <==> fl(raw as real) == raw as real
  {
    var raw := dollars * 1_000_000;
    if fl(raw as real) == raw as real {
      DoubleSurvives(fl, dollars);
    }
    if UnitsSent(fl, raw) == Some(raw) {
      var x := Numeral(ShownPrice(fl, raw)).value;
      var units := fl(fl(x) * 1_000_000.0);
      assert fl(units) == units && units == raw as real;
    }
  }

  lemma DoubleSurvives(fl: real -> real, dollars: int)
    requires Rounding(fl) && 1 <= dollars <= TWO_53
    requires fl((dollars * 1_000_000) as real) == (dollars * 1_000_000) as real
    ensures UnitsSent(fl, dollars * 1_000_000) == Some(dollars * 1_000_000)
  {
    var raw, x := dollars * 1_000_000, dollars as real;
    MillionfoldIsWhole(dollars);
    assert fl(x) == x;
    PrintedPriceReadsBack(dollars);
    assert ShownPrice(fl, raw) == Fixed2(x);
  }

  lemma MillionfoldIsWhole(n: int)
    ensures (n * 1_000_000) as real / 1_000_000.0 == n as real && n as real * 1_000_000.0 == (n * 1_000_000) as real
    ensures (n as real).Floor == n && ((n * 1_000_000) as real).Floor == n * 1_000_000
  {
  }

  /** So every price up to 9,007,199,254 dollars survives. */
  lemma RealisticAmountSurvives(fl: real -> real, dollars: int)
    requires Rounding(fl) && 1 <= dollars <= 9_007_199_254
    ensures UnitsSent(fl, dollars * 1_000_000) == Some(dollars * 1_000_000)
  {
    assert -TWO_53 <= dollars * 1_000_000 <= TWO_53;
    AmountSurvivesIff(fl, dollars);
  }

  // The instructions

  const ATA_PROGRAM := "ATokenGPvbdGVxr1b2hvZbsiqW5xWH25efTNsLJA8knL"
  const SYSTEM_PROGRAM := "11111111111111111111111111111111"

  datatype Built = Built(program: Key, accounts: seq<Key>, data: seq<Byte>)

  /** The low count bytes of n, least significant first. */
  function LittleEndianBytes(n: nat, count: nat): (bytes: seq<Byte>)
    ensures |bytes| == count
  {
    if count == 0 then [] else [(n % 256) as Byte] + LittleEndianBytes(n / 256, count - 1)
  }

  function Pow256(n: nat): nat
  {
    if n == 0 then 1 else 256 * Pow256(n - 1)
  }

  lemma {:induction false} BytesAreRead(n: nat, count: nat)
    requires n < Pow256(count)
    ensures LittleEndian(LittleEndianBytes(n, count)) == n
  {
    if count > 0 {
      BytesAreRead(n / 256, count - 1);
    }
  }

  lemma EightBytesAreRead(n: nat)
    requires n < TWO_64
    ensures LittleEndian(LittleEndianBytes(n, 8)) == n
  {
    assert Pow256(8) == 256 * Pow256(7) && Pow256(7) == 256 * Pow256(6) && Pow256(6) == 256 * Pow256(5)
        && Pow256(5) == 256 * Pow256(4) && Pow256(4) == 256 * Pow256(3) && Pow256(3) == 256 * Pow256(2)
        && Pow256(2) == 256 * Pow256(1) && Pow256(1) == 256 * Pow256(0);
    BytesAreRead(n, 8);
  }

  predicate Ascii(s: string) {
    forall i | 0 <= i < |s| :: s[i] < 128 as char
  }

  /** Buffer.from(memo, "utf-8") of ASCII text */
  function AsciiBytes(s: string): seq<Byte>
    requires Ascii(s)
  {
    seq(|s|, i requires 0 <= i < |s| => s[i] as int as Byte)
  }

  /** createUsdcTransfer, once the amount is a whole number of units. */
  function CreateUsdcTransfer(cfg: Config, payer: Key, recipient: Key, units: nat, memo: string): seq<Built>
    requires Ascii(memo) && cfg.mint != ""
  {
    [ Built(ATA_PROGRAM, [payer, cfg.ata(recipient), recipient, cfg.mint, SYSTEM_PROGRAM, TOKEN_PROGRAM], [1]),
      Built(TOKEN_PROGRAM, [cfg.ata(payer), cfg.ata(recipient), payer], [3] + LittleEndianBytes(units, 8)),
      Built(MEMO_PROGRAM_V1, [payer], AsciiBytes(memo)) ]
  }

  ghost predicate CompilesAt(built: Built, keys: seq<Key>, ins: Instruction) {
    && ins.program < |keys| && keys[ins.program] == built.program
    && |ins.accounts| == |built.accounts|
    && (forall j | 0 <= j < |built.accounts| :: ins.accounts[j] < |keys| && keys[ins.accounts[j]] == built.accounts[j])
    && ins.data == built.data
  }

  /** tx carries these instructions, under any table of account keys. */
  ghost predicate Compiles(built: seq<Built>, tx: Transaction) {
    && |tx.instructions| == |built|
    && forall i | 0 <= i < |built| :: CompilesAt(built[i], tx.keys, tx.instructions[i])
  }

  lemma ProgramsDiffer()
    ensures ATA_PROGRAM != TOKEN_PROGRAM && ATA_PROGRAM != MEMO_PROGRAM && ATA_PROGRAM != MEMO_PROGRAM_V1
    ensures TOKEN_PROGRAM != MEMO_PROGRAM && TOKEN_PROGRAM != MEMO_PROGRAM_V1
  {
    assert ATA_PROGRAM[0] == 'A';
    assert TOKEN_PROGRAM[0] == 'T';
    assert MEMO_PROGRAM[0] == 'M';
    assert MEMO_PROGRAM_V1[0] == 'M';
  }

  /** What the verifier sees of each of the three instructions. */
  lemma BuiltInstructions(cfg: Config, payer: Key, recipient: Key, units: nat, memo: string, tx: Transaction)
    requires Ascii(memo) && cfg.mint != "" && units < TWO_64
    requires Compiles(CreateUsdcTransfer(cfg, payer, recipient, units, memo), tx)
    ensures |tx.instructions| == 3
    ensures TransferAt(tx, 0) == None && TransferAt(tx, 2) == None
    ensures TransferAt(tx, 1) == Some(Transfer(cfg.ata(recipient), payer, units))
    ensures forall r :: !MemoAt(tx, 0, r) && !MemoAt(tx, 1, r) && (MemoAt(tx, 2, r) <==> Contains(memo, r))
  {
    var built := CreateUsdcTransfer(cfg, payer, recipient, units, memo);
    assert CompilesAt(built[0], tx.keys, tx.instructions[0]);
    assert CompilesAt(built[1], tx.keys, tx.instructions[1]);
    assert CompilesAt(built[2], tx.keys, tx.instructions[2]);
    ProgramsDiffer();
    EightBytesAreRead(units);
    assert tx.instructions[1].data[1..9] == LittleEndianBytes(units, 8);
    assert GoString(AsciiBytes(memo)) == memo;
  }

  /** A built payment passes the verifier exactly for the references inside its memo and the amount it was built
      for, unless the merchant pays himself; the payer is then reported as the sender. */
  lemma BuiltPaymentIsAccepted(cfg: Config, payer: Key, recipient: Key, units: nat, memo: string, tx: Transaction,
                               reference: string, amount: int)
    requires Ascii(memo) && cfg.mint != "" && units < TWO_64 && 0 <= amount < TWO_64
    requires Compiles(CreateUsdcTransfer(cfg, payer, recipient, units, memo), tx) && !tx.failed
    ensures Accepts(cfg, tx, reference, amount, recipient)
       <==> payer != recipient && amount == units && Contains(memo, reference)
    ensures Accepts(cfg, tx, reference, amount, recipient) ==>
              RightVerdict(cfg, tx, reference, amount, recipient, Accepted(payer))
  {
    BuiltInstructions(cfg, payer, recipient, units, memo, tx);
    assert AuthoredAt(tx, 1, recipient) <==> payer == recipient;
    assert PaysAt(cfg, tx, 1, amount, recipient) <==> amount == units;
    assert MemoAt(tx, 2, reference) <==> Contains(memo, reference);
    if amount == units {
      assert LastPayment(cfg, tx, amount, recipient, 3, 1);
    }
  }

  /** References have one length, so a memo that is one reference contains no other. */
  lemma OneReferencePerMemo(reference: string, other: string)
    requires |reference| == |other|
    ensures Contains(reference, other) <==> reference == other
  {
    if Contains(reference, other) {
      var i :| 0 <= i <= |reference| - |other| && OccursAt(reference, other, i);
      assert reference[0..|other|] == reference;
    }
    assert reference[0..|reference|] == reference;
    assert reference == other ==> OccursAt(reference, other, 0);
  }

  /** The trip of a whole-dollar payment: the page's price, the built transaction, the verifier. */
  lemma WholeDollarPaymentIsAccepted(cfg: Config, fl: real -> real, dollars: int, payer: Key, merchant: Key,
                                     reference: string, tx: Transaction, asked: string)
    requires Rounding(fl) && 1 <= dollars <= 9_007_199_254 && cfg.mint != ""
    requires Ascii(reference) && |reference| == 36 && |asked| == 36
    requires var units := UnitsSent(fl, dollars * 1_000_000);
             units.Some? && units.value >= 0 && Compiles(CreateUsdcTransfer(cfg, payer, merchant, units.value, reference), tx)
    requires !tx.failed
    ensures Accepts(cfg, tx, asked, dollars * 1_000_000, merchant) <==> payer != merchant && asked == reference
    ensures payer != merchant ==> RightVerdict(cfg, tx, reference, dollars * 1_000_000, merchant, Accepted(payer))
  {
    RealisticAmountSurvives(fl, dollars);
    BuiltPaymentIsAccepted(cfg, payer, merchant, dollars * 1_000_000, reference, tx, asked, dollars * 1_000_000);
    BuiltPaymentIsAccepted(cfg, payer, merchant, dollars * 1_000_000, reference, tx, reference, dollars * 1_000_000);
    OneReferencePerMemo(reference, asked);
    OneReferencePerMemo(reference, reference);
  }
}
