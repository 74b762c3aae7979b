/** The sandbox ledger: accounts with balances, and transfers rounded to cents. Amounts are exact reals. */
module SandboxSimulatorStore {
  import opened Wrappers
  import opened Strings

  datatype Row = Row(accountId: string, currency: string, balance: real)

  /** `amount` is None when it is not a finite number. */
  datatype TransferInput = TransferInput(fromId: string, toId: string, amount: Option<real>, currency: string)

  datatype Transfer = Transfer(
    fromId: string, toId: string, amount: real, currency: string, fromAfter: real, toAfter: real)

  datatype LedgerError = AmountInvalid | AccountNotFound | CurrencyMismatch | InsufficientFunds

  datatype Outcome = Completed(transfer: Transfer) | Failed(error: LedgerError)

  /** `Math.round`: to the nearest whole number, a half upwards. */
  function Round(x: real): int {
    (x + 0.5).Floor
  }

  function RoundMoney(value: real): real {
    Round(value * 100.0) as real / 100.0
  }

  function IndexOf(rows: seq<Row>, id: string): (n: nat)
    ensures n <= |rows|
    ensures n < |rows| ==> rows[n].accountId == id
  {
    if rows == [] || rows[0].accountId == id then 0 else 1 + IndexOf(rows[1..], id)
  }

  function Debited(rows: seq<Row>, n: nat, amount: real): seq<Row>
    requires n < |rows|
  {
    rows[n := rows[n].(balance := RoundMoney(rows[n].balance - amount))]
  }

  function Credited(rows: seq<Row>, n: nat, amount: real): seq<Row>
    requires n < |rows|
  {
    rows[n := rows[n].(balance := RoundMoney(rows[n].balance + amount))]
  }

  /** First the debit, then the credit, which sees the debit if both are the same account. */
  function Moved(rows: seq<Row>, from: nat, to: nat, amount: real): (r: seq<Row>)
    requires from < |rows| && to < |rows|
    ensures |r| == |rows|
  {
    Credited(Debited(rows, from, amount), to, amount)
  }

  function Refusal(rows: seq<Row>, input: TransferInput): Option<LedgerError> {
    var from, to := IndexOf(rows, input.fromId), IndexOf(rows, input.toId);
    if input.amount.None? || input.amount.value <= 0.0 then Some(AmountInvalid)
    else if from == |rows| || to == |rows| then Some(AccountNotFound)
    else if rows[from].currency != Upper(input.currency) || rows[to].currency != Upper(input.currency) then
      Some(CurrencyMismatch)
    else if rows[from].balance < input.amount.value then Some(InsufficientFunds)
    else None
  }

  /** The ledger after a transfer is asked for, its transfers newest first, and the outcome. */
  function Create(rows: seq<Row>, transfers: seq<Transfer>, input: TransferInput): (seq<Row>, seq<Transfer>, Outcome) {
    if Refusal(rows, input).Some? then (rows, transfers, Failed(Refusal(rows, input).value))
    else
      var from, to := IndexOf(rows, input.fromId), IndexOf(rows, input.toId);
      var rows' := Moved(rows, from, to, input.amount.value);
      var transfer := Transfer(
        input.fromId, input.toId, input.amount.value, Upper(input.currency), rows'[from].balance, rows'[to].balance);
      (rows', [transfer] + transfers, Completed(transfer))
  }

  // ----------------------------------------------------------- accounts in place

  class Account {
    const accountId: string
    const currency: string
    var balance: real

    constructor (accountId: string, currency: string, balance: real)
      ensures this.accountId == accountId && this.currency == currency && this.balance == balance
    {
      this.accountId, this.currency, this.balance := accountId, currency, balance;
    }

    ghost function View(): Row
      reads this
    {
      Row(accountId, currency, balance)
    }
  }

  class Store {
    var accounts: seq<Account>
    var transfers: seq<Transfer>

    ghost predicate Valid()
      reads this
    {
      forall i, j :: 0 <= i < j < |accounts| ==> accounts[i] != accounts[j]
    }

    ghost function Rows(): (r: seq<Row>)
      reads this, accounts
      ensures |r| == |accounts|
    {
      RowsOf(accounts)
    }

    constructor ()
      ensures Valid() && Rows() == Seed() && transfers == [] && fresh(accounts)
    {
      accounts, transfers := [], [];
      new;
      Reset();
    }

    method Reset()
      modifies this
      ensures Valid() && Rows() == Seed() && transfers == [] && fresh(accounts)
    {
      var seed := Seed();
      Open(seed[0], seed[1], seed[2], seed[3]);
    }

    method Open(r0: Row, r1: Row, r2: Row, r3: Row)
      modifies this
      ensures Valid() && Rows() == [r0, r1, r2, r3] && transfers == [] && fresh(accounts)
    {
      var a := new Account(r0.accountId, r0.currency, r0.balance);
      var b := new Account(r1.accountId, r1.currency, r1.balance);
      var c := new Account(r2.accountId, r2.currency, r2.balance);
      var d := new Account(r3.accountId, r3.currency, r3.balance);
      accounts := [a, b, c, d];
      transfers := [];
    }

    /** The position of an account; the number of accounts if there is none. */
    method GetAccount(id: string) returns (n: nat)
      ensures n == IndexOf(Rows(), id)
    {
      n := 0;
      assert Rows()[0..] == Rows();
      while n < |accounts| && accounts[n].accountId != id
        invariant n <= |accounts|
        invariant IndexOf(Rows(), id) == n + IndexOf(Rows()[n..], id)
      {
        assert Rows()[n..][1..] == Rows()[n + 1..];
        n := n + 1;
      }
    }

    /** One balance is replaced; the account may be reached through other variables too. */
    method SetBalance(n: nat, balance: real)
      requires Valid() && n < |accounts|
      modifies accounts
      ensures Rows() == old(Rows())[n := old(Rows())[n].(balance := balance)]
    {
      ghost var rows := Rows();
      accounts[n].balance := balance;
      forall i | 0 <= i < |accounts| ensures Rows()[i] == rows[n := rows[n].(balance := balance)][i] {
        assert i != n ==> accounts[i] != accounts[n];
      }
    }

    method Check(input: TransferInput) returns (refusal: Option<LedgerError>, from: nat, to: nat)
      ensures refusal == Refusal(Rows(), input)
      ensures from == IndexOf(Rows(), input.fromId) && to == IndexOf(Rows(), input.toId)
    {
      from := GetAccount(input.fromId);
      to := GetAccount(input.toId);
      if input.amount.None? || input.amount.value <= 0.0 {
        refusal := Some(AmountInvalid);
      } else if from == |accounts| || to == |accounts| {
        refusal := Some(AccountNotFound);
      } else if accounts[from].currency != Upper(input.currency) || accounts[to].currency != Upper(input.currency) {
        refusal := Some(CurrencyMismatch);
      } else if accounts[from].balance < input.amount.value {
        refusal := Some(InsufficientFunds);
      } else {
        refusal := None;
      }
    }

    method Move(from: nat, to: nat, amount: real)
      requires Valid() && from < |accounts| && to < |accounts|
      modifies accounts
      ensures Rows() == Moved(old(Rows()), from, to, amount)
    {
      SetBalance(from, RoundMoney(accounts[from].balance - amount));
      SetBalance(to, RoundMoney(accounts[to].balance + amount));
    }

    method CreateTransfer(input: TransferInput) returns (r: Outcome)
      requires Valid()
      modifies this`transfers, accounts
      ensures Valid() && accounts == old(accounts)
      ensures (Rows(), transfers, r) == Create(old(Rows()), old(transfers), input)
    {
      var refusal, from, to := Check(input);
      if refusal.Some? { return Failed(refusal.value); }
      Move(from, to, input.amount.value);
      var transfer := Transfer(
        input.fromId, input.toId, input.amount.value, Upper(input.currency), accounts[from].balance,
        accounts[to].balance);
      transfers := [transfer] + transfers;
      r := Completed(transfer);
    }
  }

  ghost function RowsOf(accounts: seq<Account>): (r: seq<Row>)
    reads accounts
    ensures |r| == |accounts|
    ensures forall i :: 0 <= i < |accounts| ==> r[i] == accounts[i].View()
  {
    seq(|accounts|, i requires 0 <= i < |accounts| reads accounts => accounts[i].View())
  }

  function Seed(): seq<Row> {
    [Row("sbx_buyer_daniel", "TZS", 1000000.0), Row("sbx_seller_catherine", "TZS", 250000.0),
     Row("sbx_saccos_member", "TZS", 500000.0), Row("sbx_agent_dar", "TZS", 750000.0)]
  }
}
