/** The records shared by the three services: a transaction, its PIX
    details, and the hourly summary the aggregator computes from them.
    Amounts are exact decimals of scale 2, held as whole cents. */
module TransactionModel {
  import opened Outcomes

  /** The closed set of transaction kinds, in declaration order. */
  datatype TransactionType = PIX | TED | DOC | CREDIT | DEBIT

  /** The closed set of PIX key kinds, in declaration order. */
  datatype PixKeyType = CPF | CNPJ | EMAIL | PHONE | RANDOM

  /** PIX details; the key type is mandatory once the details are present. */
  datatype PixData = PixData(pixKey: string, pixKeyType: PixKeyType, endToEndId: string)

  /** One financial event. `timestamp` is the event time as text; it is
      informational and never used to choose a period. */
  datatype Transaction = Transaction(
    id: string,
    accountId: string,
    amount: int,
    ttype: TransactionType,
    description: string,
    timestamp: string,
    pixData: Option<PixData>)

  /** A transaction with the default for `pixData`: absent. */
  function NewTransaction(id: string, accountId: string, amount: int, ttype: TransactionType,
                          description: string, timestamp: string): (t: Transaction)
    ensures t.pixData == None
    ensures t.id == id && t.accountId == accountId && t.amount == amount && t.ttype == ttype
    ensures t.description == description && t.timestamp == timestamp
  {
    Transaction(id, accountId, amount, ttype, description, timestamp, None)
  }

  /** Count, total and half-up average (all in cents) of one transaction type. */
  datatype TransactionTypeStats = TransactionTypeStats(count: nat, totalAmount: int, averageAmount: int)

  /** Count and total of one account. */
  datatype AccountStats = AccountStats(accountId: string, transactionCount: nat, totalAmount: int)

  /** PIX totals and the count of PIX transactions per key type, the latter as
      an association list in first-seen order (a Kotlin LinkedHashMap). */
  datatype PixStats = PixStats(
    totalPixTransactions: nat,
    totalPixAmount: int,
    pixByKeyType: seq<(PixKeyType, nat)>)

  /** The summary of one period. `transactionsByType` is an association list
      in first-seen order; `generatedAt` is the clock reading as text and the
      only field not determined by the period's transactions. */
  datatype TransactionSummary = TransactionSummary(
    period: string,
    totalTransactions: nat,
    totalAmount: int,
    transactionsByType: seq<(TransactionType, TransactionTypeStats)>,
    topAccounts: seq<AccountStats>,
    pixStats: PixStats,
    generatedAt: string)

  /** The enum constants in declaration (ordinal) order. */
  const AllTransactionTypes: seq<TransactionType> := [PIX, TED, DOC, CREDIT, DEBIT]
  const AllPixKeyTypes: seq<PixKeyType> := [CPF, CNPJ, EMAIL, PHONE, RANDOM]

  /** The position of a constant in its enum declaration. */
  function TypeOrdinal(t: TransactionType): (n: nat)
    ensures n < |AllTransactionTypes| && AllTransactionTypes[n] == t
  {
    match t
    case PIX => 0
    case TED => 1
    case DOC => 2
    case CREDIT => 3
    case DEBIT => 4
  }

  function KeyTypeOrdinal(k: PixKeyType): (n: nat)
    ensures n < |AllPixKeyTypes| && AllPixKeyTypes[n] == k
  {
    match k
    case CPF => 0
    case CNPJ => 1
    case EMAIL => 2
    case PHONE => 3
    case RANDOM => 4
  }

  /** Kotlin's `name` of an enum constant. */
  function TypeName(t: TransactionType): string
  {
    match t
    case PIX => "PIX"
    case TED => "TED"
    case DOC => "DOC"
    case CREDIT => "CREDIT"
    case DEBIT => "DEBIT"
  }

  function KeyTypeName(k: PixKeyType): string
  {
    match k
    case CPF => "CPF"
    case CNPJ => "CNPJ"
    case EMAIL => "EMAIL"
    case PHONE => "PHONE"
    case RANDOM => "RANDOM"
  }

  /** Each enum lists every constant exactly once, so ordinals are a bijection. */
  lemma EnumsClosed()
    ensures |AllTransactionTypes| == 5 && |AllPixKeyTypes| == 5
    ensures forall i, j :: 0 <= i < j < 5 ==> AllTransactionTypes[i] != AllTransactionTypes[j]
    ensures forall i, j :: 0 <= i < j < 5 ==> AllPixKeyTypes[i] != AllPixKeyTypes[j]
    ensures forall t :: TypeOrdinal(t) < 5 && AllTransactionTypes[TypeOrdinal(t)] == t
    ensures forall k :: KeyTypeOrdinal(k) < 5 && AllPixKeyTypes[KeyTypeOrdinal(k)] == k
  {
  }

  /** Names are distinct, so an enum constant is recovered from its name. */
  lemma NamesInjective(t: TransactionType, u: TransactionType, k: PixKeyType, l: PixKeyType)
    ensures TypeName(t) == TypeName(u) ==> t == u
    ensures KeyTypeName(k) == KeyTypeName(l) ==> k == l
  {
  }
}
