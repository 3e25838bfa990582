/**
 * Parsing of an ABO/GPC bank statement (abo/statement.go): a header record
 * ("074") followed by transaction records ("075") until the input ends.
 * Every record is a fixed layout of fields read through the ABO reader;
 * the spec functions below say what a record at a given offset of the
 * input decodes to, and the classes' methods read the fields one after
 * another into their objects and are proved to agree with them.
 */
module AboStatement {
  import opened Wrappers
  import opened AboIO
  import opened AboCurrency

  /** "074", the statement header's record type. */
  const HeaderTag: bytes := [ZERO, ZERO + 7, ZERO + 4]
  /** "075", a transaction's record type. */
  const TxnTag: bytes := [ZERO, ZERO + 7, ZERO + 5]

  /** A decoded value and the input offset just after it. */
  datatype Got<T> = Got(value: T, next: nat)

  /** How a method's error result reports the outcome of its spec function. */
  predicate Reports<T>(p: Result<T, Error>, err: Option<Error>) {
    if p.Ok? then err == None else err == Some(p.error)
  }

  // ---------------------------------------------------------------------
  // Fields

  /**
   * One field of n bytes at pos, decoded; a failed read or decode is
   * wrapped with the field's name, as abo's newErr does.
   */
  function FieldAt<T>(data: bytes, pos: nat, n: nat, decode: bytes -> Result<T, Error>, field: string): (r: Result<Got<T>, Error>)
    requires pos <= |data|
    ensures r.Ok? <==> pos < |data| && pos + n <= |data| && decode(data[pos..pos + n]).Ok?
    ensures r.Ok? ==> r.value == Got(decode(data[pos..pos + n]).value, pos + n)
    ensures r.Err? ==> r.error.Context? && r.error.field == field
  {
    match Decoded(Window(data, pos, n), decode)
    case Ok(v) => Ok(Got(v, pos + n))
    case Err(e) => Err(Context(field, e))
  }

  /** The trimmed record type at pos, as ReadStr of 3 bytes sees it. */
  function TagAt(data: bytes, pos: nat): (r: Result<bytes, Error>)
    requires pos <= |data|
    ensures r == Err(EndOfInput) <==> pos == |data|
    ensures r.Ok? <==> pos + 3 <= |data| && pos < |data|
    ensures r.Ok? ==> r.value == DecodeStr(data[pos..pos + 3])
  {
    Decoded(Window(data, pos, 3), b => Ok(DecodeStr(b)))
  }

  /** A balance with its sign byte applied, as Statement.Read does: negated iff that byte is '-'. */
  function Signed(magnitude: int, sign: byte): int {
    if sign == MINUS then -magnitude else magnitude
  }

  /** A 14-byte magnitude followed by its one-byte sign. */
  function BalanceAt(data: bytes, pos: nat, field: string): (r: Result<Got<int>, Error>)
    requires pos <= |data|
    ensures r.Ok? <==> pos + 15 <= |data| && DecodeInt(data[pos..pos + 14]).Ok?
    ensures r.Ok? ==> r.value == Got(Signed(DecodeInt(data[pos..pos + 14]).value, data[pos + 14]), pos + 15)
    ensures r.Err? ==> r.error.Context?
  {
    var m :- FieldAt(data, pos, 14, DecodeInt, field);
    var sign := Window(data, m.next, 1);
    if sign.Err? then Err(Context(field, sign.error))
    else Ok(Got(Signed(m.value, data[m.next]), m.next + 1))
  }

  // ---------------------------------------------------------------------
  // The transaction record, bytes 1-130, in four parts after the record type

  /** Bytes 4-35: owner account, counterparty account prefix and number. */
  function AccountsAt(data: bytes, pos: nat): (r: Result<Got<(int, int, int)>, Error>)
    requires pos <= |data|
    ensures r.Ok? <==>
      (pos + 32 <= |data| && DecodeInt(data[pos..pos + 16]).Ok?
       && DecodeInt(data[pos + 16..pos + 22]).Ok? && DecodeInt(data[pos + 22..pos + 32]).Ok?)
    ensures r.Ok? ==>
      (r.value.next == pos + 32
       && r.value.value.0 == DecodeInt(data[pos..pos + 16]).value
       && r.value.value.1 == DecodeInt(data[pos + 16..pos + 22]).value
       && r.value.value.2 == DecodeInt(data[pos + 22..pos + 32]).value)
    ensures r.Err? ==> r.error.Context?
  {
    var owner :- FieldAt(data, pos, 16, DecodeInt, "txn owner account num");
    var prefix :- FieldAt(data, owner.next, 6, DecodeInt, "txn counterparty acc num prefix");
    var num :- FieldAt(data, prefix.next, 10, DecodeInt, "txn counterparty acc num");
    Ok(Got((owner.value, prefix.value, num.value), num.next))
  }

  /** Bytes 36-71: transaction id, amount in minor units, type and variable symbol. */
  function AmountsAt(data: bytes, pos: nat): (r: Result<Got<(int, int, int, int)>, Error>)
    requires pos <= |data|
    ensures r.Ok? <==>
      (pos + 36 <= |data| && DecodeInt(data[pos..pos + 13]).Ok?
       && DecodeInt(data[pos + 13..pos + 25]).Ok? && DecodeInt(data[pos + 25..pos + 26]).Ok?
       && DecodeInt(data[pos + 26..pos + 36]).Ok?)
    ensures r.Ok? ==>
      (r.value.next == pos + 36
       && r.value.value.0 == DecodeInt(data[pos..pos + 13]).value
       && r.value.value.1 == DecodeInt(data[pos + 13..pos + 25]).value
       && r.value.value.2 == DecodeInt(data[pos + 25..pos + 26]).value
       && r.value.value.3 == DecodeInt(data[pos + 26..pos + 36]).value)
    ensures r.Err? ==> r.error.Context?
  {
    var id :- FieldAt(data, pos, 13, DecodeInt, "txn id");
    var amount :- FieldAt(data, id.next, 12, DecodeInt, "txn amount");
    var kind :- FieldAt(data, amount.next, 1, DecodeInt, "txn type");
    var vs :- FieldAt(data, kind.next, 10, DecodeInt, "txn VS");
    Ok(Got((id.value, amount.value, kind.value, vs.value), vs.next))
  }

  /** Bytes 72-91: two skipped bytes, counterparty bank, constant and specific symbols. */
  function CodesAt(data: bytes, pos: nat): (r: Result<Got<(int, int, int)>, Error>)
    requires pos <= |data|
    ensures r.Ok? <==>
      (pos + 20 <= |data| && DecodeInt(data[pos + 2..pos + 6]).Ok?
       && DecodeInt(data[pos + 6..pos + 10]).Ok? && DecodeInt(data[pos + 10..pos + 20]).Ok?)
    ensures r.Ok? ==>
      (r.value.next == pos + 20
       && r.value.value.0 == DecodeInt(data[pos + 2..pos + 6]).value
       && r.value.value.1 == DecodeInt(data[pos + 6..pos + 10]).value
       && r.value.value.2 == DecodeInt(data[pos + 10..pos + 20]).value)
    ensures r.Err? ==> r.error.Context?
  {
    // a skip that runs out of input leaves the next read at the end of it
    if pos + 2 > |data| then Err(Context("txn counterparty bank id", EndOfInput)) else
    var bank :- FieldAt(data, pos + 2, 4, DecodeInt, "txn counterparty bank id");
    var ks :- FieldAt(data, bank.next, 4, DecodeInt, "txn KS");
    var ss :- FieldAt(data, ks.next, 10, DecodeInt, "txn SS");
    Ok(Got((bank.value, ks.value, ss.value), ss.next))
  }

  /** Go's uint16(i): the integer modulo 2^16. */
  function ToCurrency(i: int): (c: Currency)
    ensures c as int == i % 0x1_0000
  {
    (i % 0x1_0000) as Currency
  }

  /** Bytes 92-117: six skipped bytes and the counterparty name. */
  function NameAt(data: bytes, pos: nat): (r: Result<Got<bytes>, Error>)
    requires pos <= |data|
    ensures r.Ok? <==> pos + 26 <= |data| && DecodeStrWindows1250(data[pos + 6..pos + 26]).Ok?
    ensures r.Ok? ==> r.value == Got(DecodeStrWindows1250(data[pos + 6..pos + 26]).value, pos + 26)
    ensures r.Err? ==> r.error.Context?
  {
    // a skip that runs out of input leaves the next read at the end of it
    if pos + 6 > |data| then Err(Context("txn counterparty acc name", EndOfInput))
    else FieldAt(data, pos + 6, 20, DecodeStrWindows1250, "txn counterparty acc name")
  }

  /** Bytes 118-128: one skipped byte, the currency code truncated to 16 bits and the due date. */
  function DueAt(data: bytes, pos: nat): (r: Result<Got<(Currency, CalendarDate)>, Error>)
    requires pos <= |data|
    ensures r.Ok? <==>
      (pos + 11 <= |data| && DecodeInt(data[pos + 1..pos + 5]).Ok? && DecodeDate(data[pos + 5..pos + 11]).Ok?)
    ensures r.Ok? ==>
      (r.value.next == pos + 11
       && r.value.value.0 as int == DecodeInt(data[pos + 1..pos + 5]).value % 0x1_0000
       && r.value.value.1 == DecodeDate(data[pos + 5..pos + 11]).value)
    ensures r.Err? ==> r.error.Context?
  {
    if pos + 1 > |data| then Err(Context("txn currency", EndOfInput)) else
    var code :- FieldAt(data, pos + 1, 4, DecodeInt, "txn currency");
    var due :- FieldAt(data, code.next, 6, DecodeDate, "txn due date");
    Ok(Got((ToCurrency(code.value), due.value), due.next))
  }

  /** The counterparty of a transaction (Transaction.Recipient in abo). */
  datatype Recipient = Recipient(name: bytes, accountNumPrefix: int, accountNum: int, bankCode: int)

  /** The fields of a transaction; the amount in minor units. */
  datatype TxnData = TxnData(
    ownerAccountNumber: int,
    recipient: Recipient,
    id: int,
    amount: int,
    currency: Currency,
    txnType: int,
    vs: int,
    ks: int,
    ss: int,
    dueDate: CalendarDate)

  /** Bytes 4-128 of a transaction record: its five parts in order. */
  function BodyAt(data: bytes, pos: nat): (r: Result<Got<TxnData>, Error>)
    requires pos <= |data|
    ensures r.Ok? ==> pos + 125 <= |data| && r.value.next == pos + 125
    ensures r.Err? ==> r.error.Context?
  {
    var a :- AccountsAt(data, pos);
    var m :- AmountsAt(data, a.next);
    var c :- CodesAt(data, m.next);
    var n :- NameAt(data, c.next);
    var d :- DueAt(data, n.next);
    var recipient := Recipient(n.value, a.value.1, a.value.2, c.value.0);
    Ok(Got(TxnData(a.value.0, recipient, m.value.0, m.value.1, d.value.0, m.value.2, m.value.3,
                   c.value.1, c.value.2, d.value.1),
           d.next))
  }

  /**
   * Transaction.Read at pos: NoMoreTransactions when no byte is left, a
   * wrong record type refused, otherwise the body and the two closing
   * line-end bytes, which are skipped unchecked.
   */
  function ParseTransaction(data: bytes, pos: nat): (r: Result<Got<TxnData>, Error>)
    requires pos <= |data|
    ensures r == Err(NoMoreTransactions) <==> pos == |data|
    ensures r.Ok? ==> pos + 128 <= |data| && r.value.next == Advance(data, pos + 128, 2)
  {
    var tag := TagAt(data, pos);
    if tag == Err(EndOfInput) then Err(NoMoreTransactions)
    else if tag.Err? then Err(Context("txn record type", tag.error))
    else if tag.value != TxnTag then Err(WrongRecordType(TxnTag, tag.value))
    else
      var b :- BodyAt(data, pos + 3);
      Ok(Got(b.value, Advance(data, b.next, 2)))
  }

  /** The 128 bytes at pos form a transaction record carrying t, column by column. */
  predicate TxnColumns(data: bytes, pos: nat, t: TxnData)
    requires pos + 128 <= |data|
  {
    && DecodeStr(data[pos..pos + 3]) == TxnTag
    && DecodeInt(data[pos + 3..pos + 19]) == Ok(t.ownerAccountNumber)
    && DecodeInt(data[pos + 19..pos + 25]) == Ok(t.recipient.accountNumPrefix)
    && DecodeInt(data[pos + 25..pos + 35]) == Ok(t.recipient.accountNum)
    && DecodeInt(data[pos + 35..pos + 48]) == Ok(t.id)
    && DecodeInt(data[pos + 48..pos + 60]) == Ok(t.amount)
    && DecodeInt(data[pos + 60..pos + 61]) == Ok(t.txnType)
    && DecodeInt(data[pos + 61..pos + 71]) == Ok(t.vs)
    && DecodeInt(data[pos + 73..pos + 77]) == Ok(t.recipient.bankCode)
    && DecodeInt(data[pos + 77..pos + 81]) == Ok(t.ks)
    && DecodeInt(data[pos + 81..pos + 91]) == Ok(t.ss)
    && DecodeStrWindows1250(data[pos + 97..pos + 117]) == Ok(t.recipient.name)
    && DecodeInt(data[pos + 118..pos + 122]).Ok?
    && t.currency as int == DecodeInt(data[pos + 118..pos + 122]).value % 0x1_0000
    && DecodeDate(data[pos + 122..pos + 128]) == Ok(t.dueDate)
  }

  /** A parsed transaction is what its columns say. */
  lemma TransactionColumns(data: bytes, pos: nat)
    requires pos <= |data| && ParseTransaction(data, pos).Ok?
    ensures pos + 128 <= |data| && TxnColumns(data, pos, ParseTransaction(data, pos).value.value)
  {
    var a := AccountsAt(data, pos + 3);
    var m := AmountsAt(data, pos + 35);
    var c := CodesAt(data, pos + 71);
    var n := NameAt(data, pos + 91);
    var d := DueAt(data, pos + 117);
    assert BodyAt(data, pos + 3).Ok?;
    assert a.Ok? && m.Ok? && c.Ok? && n.Ok? && d.Ok?;
  }

  /**
   * Conversely, any 128 bytes whose columns decode are read as that
   * transaction: in particular neither the type code nor the skipped
   * bytes are checked.
   */
  lemma TransactionOfColumns(data: bytes, pos: nat, t: TxnData)
    requires pos + 128 <= |data| && TxnColumns(data, pos, t)
    ensures ParseTransaction(data, pos) == Ok(Got(t, Advance(data, pos + 128, 2)))
  {
    var a := AccountsAt(data, pos + 3);
    var m := AmountsAt(data, pos + 35);
    var c := CodesAt(data, pos + 71);
    var n := NameAt(data, pos + 91);
    var d := DueAt(data, pos + 117);
    assert a.Ok? && m.Ok? && c.Ok? && n.Ok? && d.Ok?;
  }

  /** A record whose type is not "075" is refused with the type read. */
  lemma WrongTransactionType(data: bytes, pos: nat)
    requires pos + 3 <= |data| && DecodeStr(data[pos..pos + 3]) != TxnTag
    ensures ParseTransaction(data, pos) == Err(WrongRecordType(TxnTag, DecodeStr(data[pos..pos + 3])))
  {
  }

  /** Records already read in front of the outcome of reading the rest. */
  function Prepend(done: seq<TxnData>, rest: Result<seq<TxnData>, Error>): Result<seq<TxnData>, Error> {
    match rest
    case Ok(ts) => Ok(done + ts)
    case Err(e) => Err(e)
  }

  /**
   * readTransactions from pos: transactions in input order until the input
   * is exhausted; the first record that fails fails the whole list.
   */
  function ParseTransactions(data: bytes, pos: nat): (r: Result<seq<TxnData>, Error>)
    requires pos <= |data|
    decreases |data| - pos
  {
    match ParseTransaction(data, pos)
    case Err(e) => if e == NoMoreTransactions then Ok([]) else Err(e)
    case Ok(g) => Prepend([g.value], ParseTransactions(data, g.next))
  }

  /** The end-of-records sentinel never escapes the loop: it ends the list instead. */
  lemma {:induction false} TransactionsHideSentinel(data: bytes, pos: nat)
    requires pos <= |data|
    ensures ParseTransactions(data, pos).Err? ==> ParseTransactions(data, pos).error != NoMoreTransactions
    decreases |data| - pos
  {
    var p := ParseTransaction(data, pos);
    if p.Ok? {
      TransactionsHideSentinel(data, p.value.next);
    }
  }

  /** The list is empty exactly at the end of the input; otherwise its head is the record at pos. */
  lemma TransactionsHead(data: bytes, pos: nat)
    requires pos <= |data| && ParseTransactions(data, pos).Ok?
    ensures var ts := ParseTransactions(data, pos).value;
      && (ts == [] <==> pos == |data|)
      && (ts != [] ==> ParseTransaction(data, pos).Ok? && ts == [ParseTransaction(data, pos).value.value]
                         + ParseTransactions(data, ParseTransaction(data, pos).value.next).value)
  {
  }

  /** Record i of the list starts at offset pos + 130 * i and is read as the i-th transaction. */
  lemma {:induction false} TransactionAt(data: bytes, pos: nat, i: nat, at: nat)
    requires pos <= |data| && ParseTransactions(data, pos).Ok?
    requires i < |ParseTransactions(data, pos).value| && at == pos + 130 * i
    ensures at + 128 <= |data| && ParseTransaction(data, at).Ok?
    ensures ParseTransaction(data, at).value.value == ParseTransactions(data, pos).value[i]
    decreases i
  {
    TransactionsHead(data, pos);
    var ts := ParseTransactions(data, pos).value;
    var head := ParseTransaction(data, pos).value;
    var rest := ParseTransactions(data, head.next).value;
    assert ts == [head.value] + rest;
    if i > 0 {
      TransactionsHead(data, head.next);
      assert head.next == pos + 130;
      TransactionAt(data, head.next, i - 1, at);
      assert ts[i] == rest[i - 1];
    }
  }

  /** The records tile the input: the last one ends it, its two line-end bytes possibly missing. */
  lemma {:induction false} TransactionsEnd(data: bytes, pos: nat)
    requires pos <= |data| && ParseTransactions(data, pos).Ok?
    ensures var n := |ParseTransactions(data, pos).value|;
      n > 0 ==> pos + 130 * n - 2 <= |data| <= pos + 130 * n
    decreases |data| - pos
  {
    TransactionsHead(data, pos);
    if pos < |data| {
      var next := ParseTransaction(data, pos).value.next;
      TransactionsHead(data, next);
      if next < |data| {
        TransactionsEnd(data, next);
      }
    }
  }

  // ---------------------------------------------------------------------
  // The statement header, bytes 1-130

  /** The statement's Info fields; balances and sums in minor units. */
  datatype StatementInfo = StatementInfo(
    accountNumber: int,
    accountName: bytes,
    startDate: CalendarDate,
    endDate: CalendarDate,
    openingBalance: int,
    closingBalance: int,
    incomeSum: int,
    expenseSum: int,
    statementNumber: int)

  /** Bytes 4-45: account number, account name and start date. */
  function IdentityAt(data: bytes, pos: nat): (r: Result<Got<(int, bytes, CalendarDate)>, Error>)
    requires pos <= |data|
    ensures r.Ok? <==>
      (pos + 42 <= |data| && DecodeInt(data[pos..pos + 16]).Ok?
       && DecodeStrWindows1250(data[pos + 16..pos + 36]).Ok? && DecodeDate(data[pos + 36..pos + 42]).Ok?)
    ensures r.Ok? ==>
      (r.value.next == pos + 42
       && r.value.value.0 == DecodeInt(data[pos..pos + 16]).value
       && r.value.value.1 == DecodeStrWindows1250(data[pos + 16..pos + 36]).value
       && r.value.value.2 == DecodeDate(data[pos + 36..pos + 42]).value)
    ensures r.Err? ==> r.error.Context?
  {
    var account :- FieldAt(data, pos, 16, DecodeInt, "account num");
    var name :- FieldAt(data, account.next, 20, DecodeStrWindows1250, "account name");
    var start :- FieldAt(data, name.next, 6, DecodeDate, "start date");
    Ok(Got((account.value, name.value, start.value), start.next))
  }

  /** Bytes 46-75: the opening and the closing balance, each with its sign byte. */
  function BalancesAt(data: bytes, pos: nat): (r: Result<Got<(int, int)>, Error>)
    requires pos <= |data|
    ensures r.Ok? <==>
      (pos + 30 <= |data| && DecodeInt(data[pos..pos + 14]).Ok? && DecodeInt(data[pos + 15..pos + 29]).Ok?)
    ensures r.Ok? ==>
      (r.value.next == pos + 30
       && r.value.value.0 == Signed(DecodeInt(data[pos..pos + 14]).value, data[pos + 14])
       && r.value.value.1 == Signed(DecodeInt(data[pos + 15..pos + 29]).value, data[pos + 29]))
    ensures r.Err? ==> r.error.Context?
  {
    var opening :- BalanceAt(data, pos, "opening balance");
    var closing :- BalanceAt(data, opening.next, "closing balance");
    Ok(Got((opening.value, closing.value), closing.next))
  }

  /** Bytes 76-104: the expense sum, one skipped byte and the income sum; no signs. */
  function SumsAt(data: bytes, pos: nat): (r: Result<Got<(int, int)>, Error>)
    requires pos <= |data|
    ensures r.Ok? <==>
      (pos + 29 <= |data| && DecodeInt(data[pos..pos + 14]).Ok? && DecodeInt(data[pos + 15..pos + 29]).Ok?)
    ensures r.Ok? ==>
      (r.value.next == pos + 29
       && r.value.value.0 == DecodeInt(data[pos..pos + 14]).value
       && r.value.value.1 == DecodeInt(data[pos + 15..pos + 29]).value)
    ensures r.Err? ==> r.error.Context?
  {
    var expense :- FieldAt(data, pos, 14, DecodeInt, "expense sum");
    // a skip that runs out of input leaves the next read at the end of it
    if expense.next + 1 > |data| then Err(Context("income sum", EndOfInput)) else
    var income :- FieldAt(data, expense.next + 1, 14, DecodeInt, "income sum");
    Ok(Got((expense.value, income.value), income.next))
  }

  /** Bytes 105-114: one skipped byte, the statement number and the end date. */
  function ClosingAt(data: bytes, pos: nat): (r: Result<Got<(int, CalendarDate)>, Error>)
    requires pos <= |data|
    ensures r.Ok? <==>
      (pos + 10 <= |data| && DecodeInt(data[pos + 1..pos + 4]).Ok? && DecodeDate(data[pos + 4..pos + 10]).Ok?)
    ensures r.Ok? ==>
      (r.value.next == pos + 10
       && r.value.value.0 == DecodeInt(data[pos + 1..pos + 4]).value
       && r.value.value.1 == DecodeDate(data[pos + 4..pos + 10]).value)
    ensures r.Err? ==> r.error.Context?
  {
    if pos + 1 > |data| then Err(Context("statement number", EndOfInput)) else
    var number :- FieldAt(data, pos + 1, 3, DecodeInt, "statement number");
    var end :- FieldAt(data, number.next, 6, DecodeDate, "end date");
    Ok(Got((number.value, end.value), end.next))
  }

  /**
   * The header as Statement.Read reads it before the transactions: a
   * record type other than "074" refused, then its parts, then sixteen
   * bytes skipped unchecked.
   */
  function ParseHeader(data: bytes, pos: nat): (r: Result<Got<StatementInfo>, Error>)
    requires pos <= |data|
    ensures r.Ok? ==> pos + 114 <= |data| && r.value.next == Advance(data, pos + 114, 16)
  {
    var tag := TagAt(data, pos);
    if tag.Err? then Err(Context("record type", tag.error))
    else if tag.value != HeaderTag then Err(WrongRecordType(HeaderTag, tag.value))
    else
      var id :- IdentityAt(data, pos + 3);
      var b :- BalancesAt(data, id.next);
      var s :- SumsAt(data, b.next);
      var c :- ClosingAt(data, s.next);
      Ok(Got(StatementInfo(id.value.0, id.value.1, id.value.2, c.value.1, b.value.0, b.value.1,
                           s.value.1, s.value.0, c.value.0),
             Advance(data, c.next, 16)))
  }

  /** The 114 bytes at pos form a statement header carrying info, column by column. */
  predicate HeaderColumns(data: bytes, pos: nat, info: StatementInfo)
    requires pos + 114 <= |data|
  {
    && DecodeStr(data[pos..pos + 3]) == HeaderTag
    && DecodeInt(data[pos + 3..pos + 19]) == Ok(info.accountNumber)
    && DecodeStrWindows1250(data[pos + 19..pos + 39]) == Ok(info.accountName)
    && DecodeDate(data[pos + 39..pos + 45]) == Ok(info.startDate)
    && DecodeInt(data[pos + 45..pos + 59]).Ok?
    && info.openingBalance == Signed(DecodeInt(data[pos + 45..pos + 59]).value, data[pos + 59])
    && DecodeInt(data[pos + 60..pos + 74]).Ok?
    && info.closingBalance == Signed(DecodeInt(data[pos + 60..pos + 74]).value, data[pos + 74])
    && DecodeInt(data[pos + 75..pos + 89]) == Ok(info.expenseSum)
    && DecodeInt(data[pos + 90..pos + 104]) == Ok(info.incomeSum)
    && DecodeInt(data[pos + 105..pos + 108]) == Ok(info.statementNumber)
    && DecodeDate(data[pos + 108..pos + 114]) == Ok(info.endDate)
  }

  /** A parsed header is what its columns say. */
  lemma HeaderColumnsOfParse(data: bytes, pos: nat)
    requires pos <= |data| && ParseHeader(data, pos).Ok?
    ensures pos + 114 <= |data| && HeaderColumns(data, pos, ParseHeader(data, pos).value.value)
  {
    var id := IdentityAt(data, pos + 3);
    var b := BalancesAt(data, pos + 45);
    var s := SumsAt(data, pos + 75);
    var c := ClosingAt(data, pos + 104);
    assert id.Ok? && b.Ok? && s.Ok? && c.Ok?;
  }

  /**
   * Conversely, any 114 bytes whose columns decode are read as that
   * header, whatever the bytes after the two sums.
   */
  lemma ParseOfHeaderColumns(data: bytes, pos: nat, info: StatementInfo)
    requires pos + 114 <= |data| && HeaderColumns(data, pos, info)
    ensures ParseHeader(data, pos) == Ok(Got(info, Advance(data, pos + 114, 16)))
  {
    var id := IdentityAt(data, pos + 3);
    var b := BalancesAt(data, pos + 45);
    var s := SumsAt(data, pos + 75);
    var c := ClosingAt(data, pos + 104);
    assert id.Ok? && b.Ok? && s.Ok? && c.Ok?;
  }

  /** A header whose record type is not "074" is refused with the type read. */
  lemma WrongHeaderType(data: bytes, pos: nat)
    requires pos + 3 <= |data| && DecodeStr(data[pos..pos + 3]) != HeaderTag
    ensures ParseHeader(data, pos) == Err(WrongRecordType(HeaderTag, DecodeStr(data[pos..pos + 3])))
  {
  }

  /** Statement.Read: the header, then the transactions up to the end of the input. */
  function ParseStatement(data: bytes, pos: nat): (r: Result<(StatementInfo, seq<TxnData>), Error>)
    requires pos <= |data|
  {
    var h :- ParseHeader(data, pos);
    var ts :- ParseTransactions(data, h.next);
    Ok((h.value, ts))
  }

  // ---------------------------------------------------------------------
  // Reading a transaction through the reader

  /** A part's outcome without the offset. */
  function Dropped<T>(p: Result<Got<T>, Error>): Result<T, Error> {
    match p
    case Ok(g) => Ok(g.value)
    case Err(e) => Err(e)
  }

  method ReadAccounts(r: Reader) returns (res: Result<(int, int, int), Error>)
    requires r.Valid()
    modifies r
    ensures r.Valid()
    ensures var p := AccountsAt(r.data, old(r.pos));
      res == Dropped(p) && (p.Ok? ==> r.pos == p.value.next)
  {
    var owner := r.ReadInt(16);
    if owner.Err? {
      return Err(Context("txn owner account num", owner.error));
    }
    var prefix := r.ReadInt(6);
    if prefix.Err? {
      return Err(Context("txn counterparty acc num prefix", prefix.error));
    }
    var num := r.ReadInt(10);
    if num.Err? {
      return Err(Context("txn counterparty acc num", num.error));
    }
    return Ok((owner.value, prefix.value, num.value));
  }

  method ReadAmounts(r: Reader) returns (res: Result<(int, int, int, int), Error>)
    requires r.Valid()
    modifies r
    ensures r.Valid()
    ensures var p := AmountsAt(r.data, old(r.pos));
      res == Dropped(p) && (p.Ok? ==> r.pos == p.value.next)
  {
    var id := r.ReadInt(13);
    if id.Err? {
      return Err(Context("txn id", id.error));
    }
    var amount := r.ReadMonetaryAmount(12);
    if amount.Err? {
      return Err(Context("txn amount", amount.error));
    }
    var kind := r.ReadInt(1);
    if kind.Err? {
      return Err(Context("txn type", kind.error));
    }
    var vs := r.ReadInt(10);
    if vs.Err? {
      return Err(Context("txn VS", vs.error));
    }
    return Ok((id.value, amount.value, kind.value, vs.value));
  }

  method ReadCodes(r: Reader) returns (res: Result<(int, int, int), Error>)
    requires r.Valid()
    modifies r
    ensures r.Valid()
    ensures var p := CodesAt(r.data, old(r.pos));
      res == Dropped(p) && (p.Ok? ==> r.pos == p.value.next)
  {
    var skip := r.Read(2);
    var bank := r.ReadInt(4);
    if bank.Err? {
      return Err(Context("txn counterparty bank id", bank.error));
    }
    var ks := r.ReadInt(4);
    if ks.Err? {
      return Err(Context("txn KS", ks.error));
    }
    var ss := r.ReadInt(10);
    if ss.Err? {
      return Err(Context("txn SS", ss.error));
    }
    return Ok((bank.value, ks.value, ss.value));
  }

  method ReadName(r: Reader) returns (res: Result<bytes, Error>)
    requires r.Valid()
    modifies r
    ensures r.Valid()
    ensures var p := NameAt(r.data, old(r.pos));
      res == Dropped(p) && (p.Ok? ==> r.pos == p.value.next)
  {
    var skip := r.Read(6);
    var name := r.ReadStrWindows1250(20);
    if name.Err? {
      return Err(Context("txn counterparty acc name", name.error));
    }
    return Ok(name.value);
  }

  method ReadDue(r: Reader) returns (res: Result<(Currency, CalendarDate), Error>)
    requires r.Valid()
    modifies r
    ensures r.Valid()
    ensures var p := DueAt(r.data, old(r.pos));
      res == Dropped(p) && (p.Ok? ==> r.pos == p.value.next)
  {
    var skip := r.Read(1);
    var code := r.ReadInt(4);
    if code.Err? {
      return Err(Context("txn currency", code.error));
    }
    var due := r.ReadTime(6);
    if due.Err? {
      return Err(Context("txn due date", due.error));
    }
    return Ok((ToCurrency(code.value), due.value));
  }

  /** Bytes 4-128 of a transaction through the reader, part by part. */
  method ReadBody(r: Reader) returns (res: Result<TxnData, Error>)
    requires r.Valid()
    modifies r
    ensures r.Valid()
    ensures var p := BodyAt(r.data, old(r.pos));
      res == Dropped(p) && (p.Ok? ==> r.pos == p.value.next)
  {
    var a := ReadAccounts(r);
    if a.Err? {
      return Err(a.error);
    }
    var m := ReadAmounts(r);
    if m.Err? {
      return Err(m.error);
    }
    var c := ReadCodes(r);
    if c.Err? {
      return Err(c.error);
    }
    var n := ReadName(r);
    if n.Err? {
      return Err(n.error);
    }
    var d := ReadDue(r);
    if d.Err? {
      return Err(d.error);
    }
    var recipient := Recipient(n.value, a.value.1, a.value.2, c.value.0);
    return Ok(TxnData(a.value.0, recipient, m.value.0, m.value.1, d.value.0, m.value.2, m.value.3,
                      c.value.1, c.value.2, d.value.1));
  }

  class Transaction {
    var ownerAccountNumber: int
    var recipient: Recipient
    var id: int
    var amount: int
    var currency: Currency
    var txnType: int
    var vs: int
    var ks: int
    var ss: int
    var dueDate: CalendarDate

    function Data(): TxnData
      reads this
    {
      TxnData(ownerAccountNumber, recipient, id, amount, currency, txnType, vs, ks, ss, dueDate)
    }

    /** new(Transaction): every field at its zero value. */
    constructor ()
      ensures Data() == TxnData(0, Recipient([], 0, 0, 0), 0, 0, 0, 0, 0, 0, 0, Date(1, 1, 1))
    {
      ownerAccountNumber, recipient, id, amount, currency := 0, Recipient([], 0, 0, 0), 0, 0, 0;
      txnType, vs, ks, ss, dueDate := 0, 0, 0, 0, Date(1, 1, 1);
    }

    method Fill(t: TxnData)
      modifies this
      ensures Data() == t
    {
      ownerAccountNumber, recipient, id, amount, currency := t.ownerAccountNumber, t.recipient, t.id, t.amount, t.currency;
      txnType, vs, ks, ss, dueDate := t.txnType, t.vs, t.ks, t.ss, t.dueDate;
    }

    /** Transaction.Read: the fields in record order, the first error returned at once. */
    method Read(r: Reader) returns (err: Option<Error>)
      requires r.Valid()
      modifies this, r
      ensures r.Valid()
      ensures var p := ParseTransaction(r.data, old(r.pos));
        Reports(p, err) && (p.Ok? ==> Data() == p.value.value && r.pos == p.value.next)
      ensures ParseTransaction(r.data, old(r.pos)) == Err(NoMoreTransactions) ==> r.pos == |r.data|
    {
      ghost var start := r.pos;
      var tag := r.ReadStr(3);
      assert tag == TagAt(r.data, start);
      if tag.Err? {
        if tag.error == EndOfInput {
          return Some(NoMoreTransactions);
        }
        return Some(Context("txn record type", tag.error));
      }
      if tag.value != TxnTag {
        return Some(WrongRecordType(TxnTag, tag.value));
      }
      var b := ReadBody(r);
      if b.Err? {
        return Some(b.error);
      }
      Fill(b.value);
      var skip := r.Read(2);
      return None;
    }
  }

  // ---------------------------------------------------------------------
  // Reading the header through the reader

  method ReadIdentity(r: Reader) returns (res: Result<(int, bytes, CalendarDate), Error>)
    requires r.Valid()
    modifies r
    ensures r.Valid()
    ensures var p := IdentityAt(r.data, old(r.pos));
      res == Dropped(p) && (p.Ok? ==> r.pos == p.value.next)
  {
    var account := r.ReadInt(16);
    if account.Err? {
      return Err(Context("account num", account.error));
    }
    var name := r.ReadStrWindows1250(20);
    if name.Err? {
      return Err(Context("account name", name.error));
    }
    var start := r.ReadTime(6);
    if start.Err? {
      return Err(Context("start date", start.error));
    }
    return Ok((account.value, name.value, start.value));
  }

  /** A balance: its magnitude, then the sign byte, negated when that byte is '-'. */
  method ReadBalance(r: Reader, field: string) returns (res: Result<int, Error>)
    requires r.Valid()
    modifies r
    ensures r.Valid()
    ensures var p := BalanceAt(r.data, old(r.pos), field);
      res == Dropped(p) && (p.Ok? ==> r.pos == p.value.next)
  {
    var magnitude := r.ReadInt(14);
    if magnitude.Err? {
      return Err(Context(field, magnitude.error));
    }
    var sign := r.Read(1);
    if sign.Err? {
      return Err(Context(field, sign.error));
    }
    return Ok(Signed(magnitude.value, sign.value[0]));
  }

  method ReadBalances(r: Reader) returns (res: Result<(int, int), Error>)
    requires r.Valid()
    modifies r
    ensures r.Valid()
    ensures var p := BalancesAt(r.data, old(r.pos));
      res == Dropped(p) && (p.Ok? ==> r.pos == p.value.next)
  {
    var opening := ReadBalance(r, "opening balance");
    if opening.Err? {
      return Err(opening.error);
    }
    var closing := ReadBalance(r, "closing balance");
    if closing.Err? {
      return Err(closing.error);
    }
    return Ok((opening.value, closing.value));
  }

  method ReadSums(r: Reader) returns (res: Result<(int, int), Error>)
    requires r.Valid()
    modifies r
    ensures r.Valid()
    ensures var p := SumsAt(r.data, old(r.pos));
      res == Dropped(p) && (p.Ok? ==> r.pos == p.value.next)
  {
    var expense := r.ReadMonetaryAmount(14);
    if expense.Err? {
      return Err(Context("expense sum", expense.error));
    }
    var skip := r.Read(1);
    var income := r.ReadMonetaryAmount(14);
    if income.Err? {
      return Err(Context("income sum", income.error));
    }
    return Ok((expense.value, income.value));
  }

  method ReadClosing(r: Reader) returns (res: Result<(int, CalendarDate), Error>)
    requires r.Valid()
    modifies r
    ensures r.Valid()
    ensures var p := ClosingAt(r.data, old(r.pos));
      res == Dropped(p) && (p.Ok? ==> r.pos == p.value.next)
  {
    var skip := r.Read(1);
    var number := r.ReadInt(3);
    if number.Err? {
      return Err(Context("statement number", number.error));
    }
    var end := r.ReadTime(6);
    if end.Err? {
      return Err(Context("end date", end.error));
    }
    return Ok((number.value, end.value));
  }

  /** The header of Statement.Read, up to and including the sixteen skipped bytes. */
  method ReadHeader(r: Reader) returns (res: Result<StatementInfo, Error>)
    requires r.Valid()
    modifies r
    ensures r.Valid()
    ensures var p := ParseHeader(r.data, old(r.pos));
      res == Dropped(p) && (p.Ok? ==> r.pos == p.value.next)
  {
    ghost var start := r.pos;
    var tag := r.ReadStr(3);
    assert tag == TagAt(r.data, start);
    if tag.Err? {
      return Err(Context("record type", tag.error));
    }
    if tag.value != HeaderTag {
      return Err(WrongRecordType(HeaderTag, tag.value));
    }
    var id := ReadIdentity(r);
    if id.Err? {
      return Err(id.error);
    }
    var b := ReadBalances(r);
    if b.Err? {
      return Err(b.error);
    }
    var s := ReadSums(r);
    if s.Err? {
      return Err(s.error);
    }
    var c := ReadClosing(r);
    if c.Err? {
      return Err(c.error);
    }
    var skip := r.Read(16);
    return Ok(StatementInfo(id.value.0, id.value.1, id.value.2, c.value.1, b.value.0, b.value.1,
                            s.value.1, s.value.0, c.value.0));
  }

  // ---------------------------------------------------------------------
  // The statement

  /** The values of the transaction objects, in list order. */
  function TransactionsData(ts: seq<Transaction>): (r: seq<TxnData>)
    reads ts
    ensures |r| == |ts|
  {
    if ts == [] then [] else TransactionsData(ts[..|ts| - 1]) + [ts[|ts| - 1].Data()]
  }

  lemma TransactionsDataSnoc(ts: seq<Transaction>, t: Transaction)
    ensures TransactionsData(ts + [t]) == TransactionsData(ts) + [t.Data()]
  {
    assert (ts + [t])[..|ts|] == ts;
  }

  lemma PrependNothing(rest: Result<seq<TxnData>, Error>)
    ensures Prepend([], rest) == rest
  {
    if rest.Ok? {
      assert [] + rest.value == rest.value;
    }
  }

  /** Appending the records one at a time leaves the outcome of the whole list unchanged. */
  lemma PrependTwice(done: seq<TxnData>, t: TxnData, rest: Result<seq<TxnData>, Error>)
    ensures Prepend(done, Prepend([t], rest)) == Prepend(done + [t], rest)
  {
    if rest.Ok? {
      assert done + ([t] + rest.value) == done + [t] + rest.value;
    }
  }

  /**
   * One pass of the loop of readTransactions: a new transaction read at
   * the cursor, and what that read means for the list read from the start.
   */
  method ReadNext(r: Reader, ghost ts: seq<Transaction>, ghost whole: Result<seq<TxnData>, Error>)
    returns (txn: Transaction, err: Option<Error>)
    requires r.Valid()
    requires Prepend(TransactionsData(ts), ParseTransactions(r.data, r.pos)) == whole
    modifies r
    ensures fresh(txn) && r.Valid()
    ensures TransactionsData(ts) == old(TransactionsData(ts))
    ensures err == None ==>
      (old(r.pos) < r.pos && Prepend(TransactionsData(ts) + [txn.Data()], ParseTransactions(r.data, r.pos)) == whole)
    ensures err == Some(NoMoreTransactions) ==> whole == Ok(TransactionsData(ts)) && r.pos == |r.data|
    ensures err.Some? && err != Some(NoMoreTransactions) ==> whole == Err(err.value)
  {
    ghost var at := r.pos;
    ghost var done := TransactionsData(ts);
    txn := new Transaction();
    err := txn.Read(r);
    if err == None {
      PrependTwice(done, txn.Data(), ParseTransactions(r.data, r.pos));
    } else if err == Some(NoMoreTransactions) {
      assert done + [] == done;
    }
  }

  /**
   * The loop of readTransactions: an empty list, then each record read
   * appended, until no byte is left; the first failing record's error is
   * returned at once.
   */
  method ReadAll(r: Reader) returns (ts: seq<Transaction>, err: Option<Error>)
    requires r.Valid()
    modifies r
    ensures r.Valid()
    ensures var p := ParseTransactions(r.data, old(r.pos));
      Reports(p, err) && (p.Ok? ==> TransactionsData(ts) == p.value && r.pos == |r.data|)
  {
    ghost var whole := ParseTransactions(r.data, r.pos);
    PrependNothing(whole);
    ts := [];
    while true
      invariant r.Valid()
      invariant Prepend(TransactionsData(ts), ParseTransactions(r.data, r.pos)) == whole
      decreases |r.data| - r.pos
    {
      var txn, e := ReadNext(r, ts, whole);
      if e.Some? {
        if e.value == NoMoreTransactions {
          return ts, None;
        }
        return ts, e;
      }
      TransactionsDataSnoc(ts, txn);
      ts := ts + [txn];
    }
  }

  class Statement {
    var info: StatementInfo
    var transactions: seq<Transaction>

    /** new(Statement): the zero Info and no transactions. */
    constructor ()
      ensures info == StatementInfo(0, [], Date(1, 1, 1), Date(1, 1, 1), 0, 0, 0, 0, 0)
      ensures transactions == []
    {
      info := StatementInfo(0, [], Date(1, 1, 1), Date(1, 1, 1), 0, 0, 0, 0, 0);
      transactions := [];
    }

    /** readTransactions: the list read by the loop, kept also when it stopped on an error. */
    method ReadTransactions(r: Reader) returns (err: Option<Error>)
      requires r.Valid()
      modifies this, r
      ensures r.Valid() && info == old(info)
      ensures var p := ParseTransactions(r.data, old(r.pos));
        Reports(p, err) && (p.Ok? ==> TransactionsData(transactions) == p.value && r.pos == |r.data|)
    {
      var ts;
      ts, err := ReadAll(r);
      transactions := ts;
    }

    /** Statement.Read: the header into Info, then the transactions. */
    method Read(r: Reader) returns (err: Option<Error>)
      requires r.Valid()
      modifies this, r
      ensures r.Valid()
      ensures var p := ParseStatement(r.data, old(r.pos));
        Reports(p, err) && (p.Ok? ==> info == p.value.0 && TransactionsData(transactions) == p.value.1)
    {
      var h := ReadHeader(r);
      if h.Err? {
        return Some(h.error);
      }
      info := h.value;
      err := ReadTransactions(r);
    }
  }

  /** FromReader: the statement read from the whole input, or no statement and the error. */
  method FromReader(input: bytes) returns (s: Statement?, err: Option<Error>)
    ensures var p := ParseStatement(input, 0);
      Reports(p, err)
      && (p.Err? ==> s == null)
      && (p.Ok? ==> s != null && s.info == p.value.0 && TransactionsData(s.transactions) == p.value.1)
  {
    var r := new Reader(input);
    var stmt := new Statement();
    err := stmt.Read(r);
    if err.Some? {
      return null, err;
    }
    return stmt, None;
  }
}
