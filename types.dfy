/**
  The data model of the ledger (src/types.rs): client and transaction
  identifiers, exact decimal amounts, the five transaction kinds with their
  lowercase tokens, transactions, account details, and the rules that turn a
  parsed input record into a transaction (an empty or missing amount is zero).
*/
module Types {
  import opened Wrappers

  /** Amounts are exact decimals; they are counted here in units of 0.0001. */
  const Scale: int := 10000

  /** The largest magnitude a decimal amount can have: a 96-bit mantissa. */
  const MaxAmount: int := 0xFFFF_FFFF_FFFF_FFFF_FFFF_FFFF

  /** Client identifiers are unsigned 16-bit integers. */
  type ClientId = x: int | 0 <= x < 0x1_0000

  /** Transaction identifiers are unsigned 32-bit integers. */
  type TxId = x: int | 0 <= x < 0x1_0000_0000

  /** A decimal amount, within the range a decimal can represent. */
  type Amount = x: int | -MaxAmount <= x <= MaxAmount

  /** An integer the record reader hands over as a signed or unsigned 64-bit value. */
  type Int64OrUInt64 = x: int | -0x8000_0000_0000_0000 <= x < 0x1_0000_0000_0000_0000

  /** Everything that can make a run fail. */
  datatype Error =
    | Arithmetic(message: string)           // a checked balance operation left the decimal range
    | InvalidDecimal(text: string)          // a non-empty amount that is not a decimal
    | UnknownVariant(token: string)         // a transaction type outside the five tokens
    | MissingField(field: string)           // a required column is absent
    | OutOfRange(field: string, value: int) // an identifier that does not fit its width
    | Read(message: string)                 // the event source could not produce a record

  /** The five kinds of ledger event. */
  datatype TxType = Deposit | Withdrawal | Dispute | Resolve | Chargeback

  /** The token a transaction kind is written as: its name in lower case. */
  function Token(t: TxType): (s: string)
    ensures |s| > 0
    ensures forall i :: 0 <= i < |s| ==> 'a' <= s[i] <= 'z'
  {
    match t
    case Deposit => "deposit"
    case Withdrawal => "withdrawal"
    case Dispute => "dispute"
    case Resolve => "resolve"
    case Chargeback => "chargeback"
  }

  /** Reads a transaction kind from its token; any other text is rejected. */
  function ParseTxType(s: string): (r: Option<TxType>)
    ensures r.Some? ==> Token(r.value) == s
  {
    if s == "deposit" then Some(Deposit)
    else if s == "withdrawal" then Some(Withdrawal)
    else if s == "dispute" then Some(Dispute)
    else if s == "resolve" then Some(Resolve)
    else if s == "chargeback" then Some(Chargeback)
    else None
  }

  /** Every token reads back as the kind it was written from, and distinct kinds have distinct tokens. */
  lemma TokenRoundTrip(t: TxType, u: TxType)
    ensures ParseTxType(Token(t)) == Some(t)
    ensures Token(t) == Token(u) ==> t == u
  {
  }

  /** One ledger event. For Dispute, Resolve and Chargeback `tx` names the deposit referred to. */
  datatype Transaction = Transaction(txType: TxType, client: ClientId, tx: TxId, amount: Amount)

  /** The running state of one client's account. */
  datatype AccountDetails = AccountDetails(
    client: ClientId,
    available: Amount,
    held: Amount,
    total: Amount,
    locked: bool)

  /** The total is the sum of what is available and what is held. */
  predicate Balanced(a: AccountDetails) {
    a.total == a.available + a.held
  }

  /** No balance of the account is negative. */
  predicate NonNegative(a: AccountDetails) {
    a.available >= 0 && a.held >= 0 && a.total >= 0
  }

  /** The all-zero account every field of which has its default value. */
  function DefaultAccount(): AccountDetails {
    AccountDetails(0, 0, 0, 0, false)
  }

  /** A fresh account holding `balance`, all of it available. */
  function NewWithBalance(balance: Amount): (a: AccountDetails)
    ensures a.available == balance && a.total == balance
    ensures a.held == 0 && !a.locked && a.client == 0
    ensures Balanced(a)
    ensures balance >= 0 ==> NonNegative(a)
  {
    DefaultAccount().(available := balance, total := balance)
  }

  /** Checked decimal addition: None when the sum leaves the decimal range. */
  function CheckedAdd(a: Amount, b: Amount): (r: Option<Amount>)
    ensures r.Some? <==> -MaxAmount <= a + b <= MaxAmount
    ensures r.Some? ==> r.value == a + b
  {
    if -MaxAmount <= a + b <= MaxAmount then Some(a + b) else None
  }

  /** Checked decimal subtraction: None when the difference leaves the decimal range. */
  function CheckedSub(a: Amount, b: Amount): (r: Option<Amount>)
    ensures r.Some? <==> -MaxAmount <= a - b <= MaxAmount
    ensures r.Some? ==> r.value == a - b
  {
    if -MaxAmount <= a - b <= MaxAmount then Some(a - b) else None
  }

  /** The characters that count as white space when an amount is trimmed (the Unicode White_Space property). */
  predicate IsWhitespace(c: char) {
    c == ' ' || '\t' <= c <= '\r' || c == '\U{85}' || c == '\U{A0}' || c == '\U{1680}'
    || '\U{2000}' <= c <= '\U{200A}' || c == '\U{2028}' || c == '\U{2029}'
    || c == '\U{202F}' || c == '\U{205F}' || c == '\U{3000}'
  }

  predicate AllWhitespace(s: string) {
    forall i :: 0 <= i < |s| ==> IsWhitespace(s[i])
  }

  /** Drops the leading white space of `s`. */
  function TrimStart(s: string): (r: string)
    ensures |r| <= |s| && r == s[|s| - |r|..]
    ensures AllWhitespace(s[..|s| - |r|])
    ensures |r| > 0 ==> !IsWhitespace(r[0])
    decreases |s|
  {
    if |s| > 0 && IsWhitespace(s[0]) then TrimStart(s[1..]) else s
  }

  /** Drops the trailing white space of `s`. */
  function TrimEnd(s: string): (r: string)
    ensures |r| <= |s| && r == s[..|r|]
    ensures AllWhitespace(s[|r|..])
    ensures |r| > 0 ==> !IsWhitespace(r[|r| - 1])
    decreases |s|
  {
    if |s| > 0 && IsWhitespace(s[|s| - 1]) then TrimEnd(s[..|s| - 1]) else s
  }

  /** Drops the white space at both ends of `s`. */
  function Trim(s: string): (r: string)
    ensures var t := TrimStart(s); |r| <= |t| && r == t[..|r|] && AllWhitespace(t[|r|..])
    ensures |r| == 0 <==> AllWhitespace(s)
    ensures |r| > 0 ==> !IsWhitespace(r[0]) && !IsWhitespace(r[|r| - 1])
  {
    TrimIsEmpty(s);
    TrimEnd(TrimStart(s))
  }

  /** Trimming yields the empty text exactly when everything is white space. */
  lemma TrimIsEmpty(s: string)
    ensures |TrimEnd(TrimStart(s))| == 0 <==> AllWhitespace(s)
  {
    var t := TrimStart(s);
    if |t| == 0 { assert s[..|s|] == s; }
    if |t| > 0 { assert t[0] == s[|s| - |t|]; }
    assert |TrimEnd(t)| == 0 ==> |t| == 0 by {
      assert t[0..] == t;
    }
  }

  /** Leading white space in front of `x` is dropped by TrimStart. */
  lemma {:induction false} TrimStartPadding(pre: string, x: string)
    requires AllWhitespace(pre)
    ensures TrimStart(pre + x) == TrimStart(x)
    decreases |pre|
  {
    if pre == [] {
      assert pre + x == x;
    } else {
      assert (pre + x)[0] == pre[0];
      assert (pre + x)[1..] == pre[1..] + x;
      TrimStartPadding(pre[1..], x);
    }
  }

  /** Trailing white space behind `x` is dropped by TrimEnd. */
  lemma {:induction false} TrimEndPadding(x: string, post: string)
    requires AllWhitespace(post)
    ensures TrimEnd(x + post) == TrimEnd(x)
    decreases |post|
  {
    if post == [] {
      assert x + post == x;
    } else {
      var n := |x + post|;
      assert (x + post)[n - 1] == post[|post| - 1];
      assert (x + post)[..n - 1] == x + post[..|post| - 1];
      TrimEndPadding(x, post[..|post| - 1]);
    }
  }

  /** When `s` is not all white space, trimming its front leaves what follows it in place. */
  lemma {:induction false} TrimStartKeepsTail(s: string, post: string)
    requires !AllWhitespace(s)
    ensures TrimStart(s + post) == TrimStart(s) + post
    decreases |s|
  {
    assert (s + post)[0] == s[0];
    if IsWhitespace(s[0]) {
      assert (s + post)[1..] == s[1..] + post;
      assert !AllWhitespace(s[1..]) by {
        var i :| 0 <= i < |s| && !IsWhitespace(s[i]);
        assert s[1..][i - 1] == s[i];
      }
      TrimStartKeepsTail(s[1..], post);
    }
  }

  /** White space around a text does not change what trimming it yields. */
  lemma TrimIgnoresPadding(pre: string, s: string, post: string)
    requires AllWhitespace(pre) && AllWhitespace(post)
    ensures Trim(pre + s + post) == Trim(s)
  {
    assert pre + s + post == pre + (s + post);
    TrimStartPadding(pre, s + post);
    assert Trim(pre + s + post) == TrimEnd(TrimStart(s + post));
    if AllWhitespace(s) {
      assert AllWhitespace(s + post) by {
        forall i | 0 <= i < |s + post| ensures IsWhitespace((s + post)[i]) {
          if i < |s| { assert (s + post)[i] == s[i]; } else { assert (s + post)[i] == post[i - |s|]; }
        }
      }
      assert |Trim(s + post)| == 0 && |Trim(s)| == 0;
    } else {
      TrimStartKeepsTail(s, post);
      TrimEndPadding(TrimStart(s), post);
    }
  }

  /** An amount read from text does not depend on the white space around it. */
  lemma AmountIgnoresPadding(pre: string, s: string, post: string, parse: string -> Option<Amount>)
    requires AllWhitespace(pre) && AllWhitespace(post)
    ensures DeserializeAmount(Text(pre + s + post), parse) == DeserializeAmount(Text(s), parse)
  {
    TrimIgnoresPadding(pre, s, post);
  }

  /** An amount field as the record reader hands it over: text, or an integer it has already recognised. */
  datatype RawAmount = Text(text: string) | Integer(n: Int64OrUInt64)

  /**
    Reads an amount. Text that is empty once trimmed is zero; otherwise the
    trimmed text must parse as a decimal (`parse` stands for the decimal
    library's parser). An integer is taken as that many whole units.
  */
  function DeserializeAmount(raw: RawAmount, parse: string -> Option<Amount>): (r: Result<Amount, Error>)
    ensures raw.Text? && AllWhitespace(raw.text) ==> r == Ok(0)
    ensures raw.Text? && !AllWhitespace(raw.text) ==>
      r == (match parse(Trim(raw.text))
            case Some(v) => Ok(v)
            case None => Err(InvalidDecimal(Trim(raw.text))))
    ensures raw.Integer? ==> r == Ok(raw.n * Scale)
  {
    match raw
    case Text(s) =>
      var trimmed := Trim(s);
      if |trimmed| == 0 then Ok(0)
      else (match parse(trimmed)
            case Some(v) => Ok(v)
            case None => Err(InvalidDecimal(trimmed)))
    case Integer(n) => Ok(n * Scale)
  }

  /** An input record with its columns as read: each may be missing. */
  datatype RawRecord = RawRecord(
    txType: Option<string>,
    client: Option<int>,
    tx: Option<int>,
    amount: Option<RawAmount>)

  /** Reads the amount column; a missing amount defaults to zero. */
  function AmountOrZero(amount: Option<RawAmount>, parse: string -> Option<Amount>): (r: Result<Amount, Error>)
    ensures amount.None? || (amount.value.Text? && AllWhitespace(amount.value.text)) ==> r == Ok(0)
    ensures amount.Some? && amount.value.Text? && !AllWhitespace(amount.value.text) ==>
      r == (match parse(Trim(amount.value.text))
            case Some(v) => Ok(v)
            case None => Err(InvalidDecimal(Trim(amount.value.text))))
    ensures amount.Some? && amount.value.Integer? ==> r == Ok(amount.value.n * Scale)
  {
    match amount
    case None => Ok(0)
    case Some(raw) => DeserializeAmount(raw, parse)
  }

  /**
    Builds a transaction from a record: the kind, client and transaction id are
    required and must be in range, the amount is optional; each field is copied
    unchanged.
  */
  function DeserializeTransaction(rec: RawRecord, parse: string -> Option<Amount>): (r: Result<Transaction, Error>)
    ensures r.Ok? <==>
      && rec.txType.Some? && ParseTxType(rec.txType.value).Some?
      && rec.client.Some? && 0 <= rec.client.value < 0x1_0000
      && rec.tx.Some? && 0 <= rec.tx.value < 0x1_0000_0000
      && AmountOrZero(rec.amount, parse).Ok?
    ensures r.Ok? ==>
      && Token(r.value.txType) == rec.txType.value
      && r.value.client == rec.client.value
      && r.value.tx == rec.tx.value
      && Ok(r.value.amount) == AmountOrZero(rec.amount, parse)
    ensures r.Ok? && (rec.amount.None? || (rec.amount.value.Text? && AllWhitespace(rec.amount.value.text))) ==>
      r.value.amount == 0
  {
    if rec.txType.None? then Err(MissingField("type"))
    else if ParseTxType(rec.txType.value).None? then Err(UnknownVariant(rec.txType.value))
    else if rec.client.None? then Err(MissingField("client"))
    else if !(0 <= rec.client.value < 0x1_0000) then Err(OutOfRange("client", rec.client.value))
    else if rec.tx.None? then Err(MissingField("tx"))
    else if !(0 <= rec.tx.value < 0x1_0000_0000) then Err(OutOfRange("tx", rec.tx.value))
    else
      match AmountOrZero(rec.amount, parse)
      case Err(e) => Err(e)
      case Ok(amount) =>
        Ok(Transaction(ParseTxType(rec.txType.value).value, rec.client.value, rec.tx.value, amount))
  }
}
