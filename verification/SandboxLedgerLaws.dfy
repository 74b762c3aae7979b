/** What every run of the sandbox ledger keeps: whole, non-negative balances, a total that grows by a
    cent exactly at half-cent transfers, and a history that reproduces the balances. */
module SandboxLedgerLaws {
  import opened Wrappers
  import opened Strings
  import opened SandboxSimulatorStore

  /** A whole number of cents. */
  function Cents(n: int): real {
    n as real / 100.0
  }

  ghost predicate WholeCents(x: real) {
    exists n :: x == Cents(n)
  }

  ghost predicate Sound(rows: seq<Row>) {
    forall i :: 0 <= i < |rows| ==> WholeCents(rows[i].balance) && rows[i].balance >= 0.0
  }

  lemma RoundNear(n: int, part: real)
    requires 0.0 <= part < 1.0
    ensures Round(n as real - part) == if part <= 0.5 then n else n - 1
    ensures Round(n as real + part) == if part < 0.5 then n else n + 1
  {
  }

  /** The fraction of a cent in an amount. */
  function Fraction(amount: real): real {
    amount * 100.0 - (amount * 100.0).Floor as real
  }

  predicate HalfCent(amount: real) {
    Fraction(amount) == 0.5
  }

  /** What a debit and a credit of a whole-cent balance come to. */
  lemma RoundedMoves(n: int, amount: real)
    ensures RoundMoney(Cents(n) - amount) ==
      Cents(n - (amount * 100.0).Floor - if Fraction(amount) <= 0.5 then 0 else 1)
    ensures RoundMoney(Cents(n) + amount) == Cents(n + (amount * 100.0).Floor + if Fraction(amount) < 0.5 then 0 else 1)
  {
    var whole, part := (amount * 100.0).Floor, Fraction(amount);
    assert (Cents(n) - amount) * 100.0 == (n - whole) as real - part;
    assert (Cents(n) + amount) * 100.0 == (n + whole) as real + part;
    RoundNear(n - whole, part);
    RoundNear(n + whole, part);
  }

  lemma RoundedIsWhole(x: real)
    ensures WholeCents(RoundMoney(x)) && (x >= 0.0 ==> RoundMoney(x) >= 0.0)
  {
    assert RoundMoney(x) == Cents(Round(x * 100.0));
  }

  /** A transfer that is not refused leaves every balance whole and non-negative, also between an account and itself. */
  lemma MovedSound(rows: seq<Row>, from: nat, to: nat, amount: real)
    requires Sound(rows) && from < |rows| && to < |rows| && 0.0 < amount <= rows[from].balance
    ensures Sound(Moved(rows, from, to, amount))
  {
    RoundedIsWhole(rows[from].balance - amount);
    var debited := Debited(rows, from, amount);
    RoundedIsWhole(debited[to].balance + amount);
  }

  /** The two sides of a transfer: each balance moves by the amount, rounded; on one account the debit comes
      first, and no other row changes. */
  lemma MovedRows(rows: seq<Row>, from: nat, to: nat, amount: real)
    requires from < |rows| && to < |rows|
    ensures
      var rows', left := Moved(rows, from, to, amount), RoundMoney(rows[from].balance - amount);
      && rows'[to] == rows[to].(balance := RoundMoney((if from == to then left else rows[to].balance) + amount))
      && (from != to ==> rows'[from] == rows[from].(balance := left))
      && forall i :: 0 <= i < |rows| && i != from && i != to ==> rows'[i] == rows[i]
  {
  }

  predicate Covered(rows: seq<Row>, input: TransferInput) {
    var from, to := IndexOf(rows, input.fromId), IndexOf(rows, input.toId);
    && input.amount.Some? && 0.0 < input.amount.value && from < |rows| && to < |rows|
    && rows[from].currency == Upper(input.currency) && rows[to].currency == Upper(input.currency)
    && input.amount.value <= rows[from].balance
  }

  /** A transfer is carried out if and only if its amount is a positive number, both accounts exist in its
      currency, and the amount is covered; the record then tells what the balances have become. */
  lemma CarriedOutIff(rows: seq<Row>, transfers: seq<Transfer>, input: TransferInput)
    ensures
      var (rows', transfers', outcome) := Create(rows, transfers, input);
      var from, to := IndexOf(rows, input.fromId), IndexOf(rows, input.toId);
      if Covered(rows, input)
      then
        && rows' == Moved(rows, from, to, input.amount.value)
        && outcome == Completed(Transfer(input.fromId, input.toId, input.amount.value, Upper(input.currency),
                                         rows'[from].balance, rows'[to].balance))
        && transfers' == [outcome.transfer] + transfers
      else
        && rows' == rows && transfers' == transfers
        && outcome == Failed(
             if input.amount.None? || input.amount.value <= 0.0 then AmountInvalid
             else if from == |rows| || to == |rows| then AccountNotFound
             else if rows[from].currency == rows[to].currency == Upper(input.currency) then InsufficientFunds
             else CurrencyMismatch)
  {
  }

  // ------------------------------------------------------------------- the total

  /** The sum of the balances in one currency. */
  function Total(rows: seq<Row>, currency: string): real {
    if rows == [] then 0.0
    else (if rows[0].currency == currency then rows[0].balance else 0.0) + Total(rows[1..], currency)
  }

  lemma {:induction false} TotalPut(rows: seq<Row>, n: nat, balance: real, currency: string)
    requires n < |rows|
    ensures Total(rows[n := rows[n].(balance := balance)], currency) ==
      Total(rows, currency) + if rows[n].currency == currency then balance - rows[n].balance else 0.0
  {
    var rows' := rows[n := rows[n].(balance := balance)];
    if n == 0 {
      assert rows'[1..] == rows[1..];
    } else {
      assert rows'[1..] == rows[1..][n - 1 := rows[1..][n - 1].(balance := balance)];
      TotalPut(rows[1..], n - 1, balance, currency);
    }
  }

  /** What a transfer adds to the total of its currency: one cent at a half cent, else nothing. */
  function Gain(amount: real): real {
    if HalfCent(amount) then 0.01 else 0.0
  }

  lemma BothSides(a: real, b: real, amount: real)
    requires WholeCents(a) && WholeCents(b)
    ensures RoundMoney(a - amount) - a + (RoundMoney(b + amount) - b) == Gain(amount)
  {
    var n :| a == Cents(n);
    var m :| b == Cents(m);
    RoundedMoves(n, amount);
    RoundedMoves(m, amount);
  }

  lemma MovedTotal(rows: seq<Row>, from: nat, to: nat, amount: real, currency: string)
    requires Sound(rows) && from < |rows| && to < |rows| && rows[from].currency == rows[to].currency
    ensures Total(Moved(rows, from, to, amount), currency) ==
      Total(rows, currency) + if rows[from].currency == currency then Gain(amount) else 0.0
  {
    var debited := Debited(rows, from, amount);
    RoundedIsWhole(rows[from].balance - amount);
    TotalPut(rows, from, RoundMoney(rows[from].balance - amount), currency);
    TotalPut(debited, to, RoundMoney(debited[to].balance + amount), currency);
    BothSides(rows[from].balance, debited[to].balance, amount);
  }

  // ------------------------------------------------------------------- every run

  function Run(rows: seq<Row>, transfers: seq<Transfer>, inputs: seq<TransferInput>): (seq<Row>, seq<Transfer>)
    decreases inputs
  {
    if inputs == [] then (rows, transfers)
    else
      var (rows', transfers', _) := Create(rows, transfers, inputs[0]);
      Run(rows', transfers', inputs[1..])
  }

  /** The transfers applied to the seed, oldest first; the list is newest first. */
  function Replay(rows: seq<Row>, transfers: seq<Transfer>): (r: seq<Row>) {
    if transfers == [] then rows
    else
      var before := Replay(rows, transfers[1..]);
      var from, to := IndexOf(before, transfers[0].fromId), IndexOf(before, transfers[0].toId);
      if from < |before| && to < |before| then Moved(before, from, to, transfers[0].amount) else before
  }

  /** The gains of the transfers in one currency. */
  function Gains(transfers: seq<Transfer>, currency: string): real {
    if transfers == [] then 0.0
    else
      (if transfers[0].currency == currency then Gain(transfers[0].amount) else 0.0) + Gains(transfers[1..], currency)
  }

  /** The ledger agrees with its own history. */
  ghost predicate Accounted(seed: seq<Row>, rows: seq<Row>, transfers: seq<Transfer>, currency: string) {
    && Sound(rows)
    && rows == Replay(seed, transfers)
    && Total(rows, currency) == Total(seed, currency) + Gains(transfers, currency)
  }

  lemma {:induction false} CreateKeepsAccount(
    seed: seq<Row>, rows: seq<Row>, transfers: seq<Transfer>, input: TransferInput, currency: string)
    requires Accounted(seed, rows, transfers, currency)
    ensures var (rows', transfers', _) := Create(rows, transfers, input); Accounted(seed, rows', transfers', currency)
  {
    if Refusal(rows, input) == None {
      var (rows', transfers', outcome) := Create(rows, transfers, input);
      var from, to, amount := IndexOf(rows, input.fromId), IndexOf(rows, input.toId), input.amount.value;
      MovedSound(rows, from, to, amount);
      MovedTotal(rows, from, to, amount, currency);
      assert transfers'[1..] == transfers;
    }
  }

  /** In every run: balances are whole, non-negative cents; replaying the transfers, oldest first, gives the
      balances back; and each currency's total is the seed's plus one cent for each half-cent transfer. */
  lemma {:induction false} RunKeepsAccount(
    seed: seq<Row>, rows: seq<Row>, transfers: seq<Transfer>, inputs: seq<TransferInput>, currency: string)
    requires Accounted(seed, rows, transfers, currency)
    ensures var (rows', transfers') := Run(rows, transfers, inputs); Accounted(seed, rows', transfers', currency)
    decreases inputs
  {
    if inputs != [] {
      var (rows', transfers', _) := Create(rows, transfers, inputs[0]);
      CreateKeepsAccount(seed, rows, transfers, inputs[0], currency);
      RunKeepsAccount(seed, rows', transfers', inputs[1..], currency);
    }
  }

  /** The ledger opens with two and a half million shillings on four accounts. */
  lemma SeedTotal()
    ensures |Seed()| == 4 && Total(Seed(), "TZS") == 2500000.0
    ensures forall row <- Seed() :: row.currency == "TZS"
  {
    var rows := Seed();
    assert rows[1..][1..] == rows[2..] && rows[2..][1..] == rows[3..] && rows[3..][1..] == [];
  }

  lemma SeedAccounted(currency: string)
    ensures Accounted(Seed(), Seed(), [], currency)
  {
    assert Cents(100000000) == 1000000.0 && Cents(25000000) == 250000.0;
    assert Cents(50000000) == 500000.0 && Cents(75000000) == 750000.0;
  }

  lemma {:induction false} SomeGain(transfers: seq<Transfer>, currency: string)
    ensures Gains(transfers, currency) >= 0.0
    ensures Gains(transfers, currency) == 0.0 ==>
      forall t <- transfers :: t.currency == currency ==> !HalfCent(t.amount)
  {
    if transfers != [] { SomeGain(transfers[1..], currency); }
  }

  /** From the seed, a currency's total is conserved if and only if none of its transfers had a half cent. */
  lemma {:induction false} ConservedIff(inputs: seq<TransferInput>, currency: string)
    ensures var (rows, transfers) := Run(Seed(), [], inputs);
      Total(rows, currency) == Total(Seed(), currency) <==>
        forall t <- transfers :: t.currency == currency ==> !HalfCent(t.amount)
  {
    var (rows, transfers) := Run(Seed(), [], inputs);
    SeedAccounted(currency);
    RunKeepsAccount(Seed(), Seed(), [], inputs, currency);
    SomeGain(transfers, currency);
    if forall t <- transfers :: t.currency == currency ==> !HalfCent(t.amount) { NoGainsIn(transfers, currency); }
  }

  lemma {:induction false} NoGainsIn(transfers: seq<Transfer>, currency: string)
    requires forall t <- transfers :: t.currency == currency ==> !HalfCent(t.amount)
    ensures Gains(transfers, currency) == 0.0
  {
    if transfers != [] { NoGainsIn(transfers[1..], currency); }
  }
}
