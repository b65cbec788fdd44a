/** What the RPC node returns for a signature, and the rules by which a transaction counts as a payment.
    Text held by the chain is a Go string: one char per byte. */
module Transactions {
  import opened Text

  type Key = k: string | |k| > 0 witness "k"
  newtype Byte = b: int | 0 <= b < 256

  const TOKEN_PROGRAM := "TokenkegQfeZyiNwAJbNbGKPFXCWuBvf9Ss623VQ5DA"
  const MEMO_PROGRAM := "MemoSq4gqABAXKb96qnH8TysNcWxMyWCqXgDLGmfcHr"
  const MEMO_PROGRAM_V1 := "Memo1UhkJRfHyvLMcVucJwxXeuD728EqVDDwQDxFMNo"

  /** The environment: the USDC mint and the library functions the handlers call. */
  datatype Config = Config(
    mint: string,
    ata: string -> Key,
    isWallet: string -> bool,
    isReference: string -> bool)

  datatype Instruction = Instruction(program: nat, accounts: seq<nat>, data: seq<Byte>)

  datatype Message = Message(failed: bool, keys: seq<Key>, instructions: seq<Instruction>)

  predicate InRange(m: Message) {
    forall i, j | 0 <= i < |m.instructions| && 0 <= j < |m.instructions[i].accounts| ::
      m.instructions[i].accounts[j] < |m.keys|
  }

  type Transaction = m: Message | InRange(m) witness Message(false, [], [])

  type Chain = map<string, Transaction>

  /** One request's view of the chain: the transactions the node answers for, and the
      merchant account's recent signatures with their memos. */
  datatype Listed = Listed(signature: string, memo: Option<string>)
  datatype Rpc = Rpc(transactions: Chain, listing: seq<Listed>)

  datatype Transfer = Transfer(destination: Key, authority: Key, amount: nat)

  /** binary.LittleEndian */
  function LittleEndian(bytes: seq<Byte>): nat {
    if bytes == [] then 0 else bytes[0] as nat + 256 * LittleEndian(bytes[1..])
  }

  const TWO_64: nat := 0x1_0000_0000_0000_0000

  /** uint64(x) for an int64 x */
  function AsUint64(amount: int): int {
    if amount < 0 then amount + TWO_64 else amount
  }

  function GoString(data: seq<Byte>): string {
    seq(|data|, i requires 0 <= i < |data| => data[i] as char)
  }

  /** The token transfer an instruction performs, if it is a Transfer (3) or TransferChecked (12). */
  function TransferAt(tx: Transaction, i: nat): Option<Transfer>
    requires i < |tx.instructions|
  {
    var ins := tx.instructions[i];
    if ins.program >= |tx.keys| || tx.keys[ins.program] != TOKEN_PROGRAM || |ins.data| < 9 then None
    else if ins.data[0] == 3 && |ins.accounts| >= 3 then
      Some(Transfer(tx.keys[ins.accounts[1]], tx.keys[ins.accounts[2]], LittleEndian(ins.data[1..9])))
    else if ins.data[0] == 12 && |ins.accounts| >= 4 then
      Some(Transfer(tx.keys[ins.accounts[2]], tx.keys[ins.accounts[3]], LittleEndian(ins.data[1..9])))
    else None
  }

  predicate MemoAt(tx: Transaction, i: nat, reference: string)
    requires i < |tx.instructions|
  {
    var ins := tx.instructions[i];
    && ins.program < |tx.keys|
    && (tx.keys[ins.program] == MEMO_PROGRAM || tx.keys[ins.program] == MEMO_PROGRAM_V1)
    && Contains(GoString(ins.data), reference)
  }

  predicate AuthoredAt(tx: Transaction, i: nat, wallet: string)
    requires i < |tx.instructions|
  {
    var t := TransferAt(tx, i);
    t.Some? && t.value.authority == wallet
  }

  /** Instruction i moves exactly the expected amount into the merchant's token account. */
  predicate PaysAt(cfg: Config, tx: Transaction, i: nat, amount: int, merchant: string)
    requires i < |tx.instructions|
  {
    var t := TransferAt(tx, i);
    t.Some? && t.value.destination == cfg.ata(merchant) && t.value.amount == AsUint64(amount)
  }

  ghost predicate HasMemo(tx: Transaction, reference: string) {
    exists i :: 0 <= i < |tx.instructions| && MemoAt(tx, i, reference)
  }

  ghost predicate HasAuthor(tx: Transaction, wallet: string) {
    exists i :: 0 <= i < |tx.instructions| && AuthoredAt(tx, i, wallet)
  }

  ghost predicate HasPayment(cfg: Config, tx: Transaction, amount: int, merchant: string) {
    exists i :: 0 <= i < |tx.instructions| && PaysAt(cfg, tx, i, amount, merchant)
  }

  /** Every token transfer in the transaction is authorised by the given wallet. */
  ghost predicate OnlyAuthor(tx: Transaction, wallet: string) {
    forall i | 0 <= i < |tx.instructions| :: TransferAt(tx, i).Some? ==> AuthoredAt(tx, i, wallet)
  }

  ghost predicate Configured(cfg: Config, merchant: string) {
    merchant != "" && cfg.mint != ""
  }

  /** The payment rule for a referenced transfer. */
  ghost predicate Accepts(cfg: Config, tx: Transaction, reference: string, amount: int, merchant: string) {
    && Configured(cfg, merchant)
    && !tx.failed
    && !HasAuthor(tx, merchant)
    && HasPayment(cfg, tx, amount, merchant)
    && HasMemo(tx, reference)
  }

  /** The payment rule for a direct transfer from a named wallet. */
  ghost predicate AcceptsDirect(cfg: Config, tx: Transaction, amount: int, merchant: string, sender: string) {
    && Configured(cfg, merchant)
    && !tx.failed
    && !HasAuthor(tx, merchant)
    && HasPayment(cfg, tx, amount, merchant)
    && OnlyAuthor(tx, sender)
  }

  /** The rules as facts about the chain. */
  ghost predicate PaidOnChain(cfg: Config, chain: Chain, reference: string, signature: string, amount: int, merchant: string) {
    signature in chain && Accepts(cfg, chain[signature], reference, amount, merchant)
  }

  ghost predicate PaidDirectlyOnChain(cfg: Config, chain: Chain, signature: string, amount: int, merchant: string, sender: string) {
    signature in chain && AcceptsDirect(cfg, chain[signature], amount, merchant, sender)
  }
}
