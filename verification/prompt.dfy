/** The system prompt: a fixed instruction, extended with a summary of the
    user's accounts, budget categories and recent transactions only when the
    user has chosen to include personal data. */
module Prompt {
  import opened Wrappers
  import opened Text
  import opened Money
  import opened UserData
  import opened Wire

  /** The data the prompt may draw on, as supplied by the data hook. */
  datatype Snapshot = Snapshot(accounts: seq<Account>, budgets: seq<Category>, transactions: seq<Txn>)

  const BaseInstruction := "You are a helpful financial assistant."

  /** The line break and indentation between the sentences of the template. */
  const Indent := "\n        "
  /** The line break and indentation that close the template. */
  const Tail := "\n      "

  const AccountsLead := "The user has "
  const AccountsTrail := " accounts "
  const BalanceLead := "with a total combined balance of "
  const BalanceTrail := ". "
  const BudgetsLead := "They have the following budget categories: "
  const NoBudgets := "No budget data available."
  const RecentLead := "Recent transactions (up to 5): "
  const NoTransactions := "No recent transactions."
  const Closing := "Use this data " + "to provide " + "personalized " + "assistance when relevant."

  const Unnamed := "Unnamed"
  const UnknownDate := "Unknown date"
  const UnknownPayee := "Unknown payee"
  const BudgetSep := ", "
  const LineSep := "; "

  /** How many transactions the prompt lists at most. */
  const RecentLimit := 5

  function Min(a: nat, b: nat): nat {
    if a <= b then a else b
  }

  /** `s || fallback` on a string field: a missing or empty value falls back. */
  function OrElse(s: Option<string>, fallback: string): (r: string)
    ensures s.Some? && s.value != "" ==> r == s.value
    ensures s.None? || s.value == "" ==> r == fallback
  {
    match s
    case Some(v) => if v != "" then v else fallback
    case None => fallback
  }

  /** `n || 0` on an amount field: a missing amount counts as zero. */
  function AmountOrZero(n: Option<int>): int {
    n.GetOr(0)
  }

  /* ---------------------------------------------------------------------- */
  /*  Accounts                                                               */
  /* ---------------------------------------------------------------------- */

  function BalanceOf(a: Account): int {
    AmountOrZero(a.balance)
  }

  /** The combined balance, summed left to right as `reduce` does, from 0. */
  function TotalBalance(accounts: seq<Account>): int
    decreases |accounts|
  {
    if |accounts| == 0 then 0
    else TotalBalance(accounts[..|accounts| - 1]) + BalanceOf(accounts[|accounts| - 1])
  }

  /** The total of a concatenation is the sum of the totals. */
  lemma {:induction false} TotalBalanceAppend(a: seq<Account>, b: seq<Account>)
    ensures TotalBalance(a + b) == TotalBalance(a) + TotalBalance(b)
    decreases |b|
  {
    if |b| == 0 {
      assert a + b == a;
    } else {
      var ab := a + b;
      assert ab[..|ab| - 1] == a + b[..|b| - 1];
      assert ab[|ab| - 1] == b[|b| - 1];
      TotalBalanceAppend(a, b[..|b| - 1]);
    }
  }

  /** Summing from the front gives the same total: the first balance plus
      the total of the rest. */
  lemma TotalBalanceFirst(accounts: seq<Account>)
    requires |accounts| > 0
    ensures TotalBalance(accounts) == BalanceOf(accounts[0]) + TotalBalance(accounts[1..])
  {
    assert accounts == [accounts[0]] + accounts[1..];
    TotalBalanceAppend([accounts[0]], accounts[1..]);
    assert [accounts[0]][..0] == [];
  }

  /** Accounts whose balance is missing or zero do not change the total. */
  lemma {:induction false} TotalBalanceIgnoresEmpty(accounts: seq<Account>)
    requires forall i :: 0 <= i < |accounts| ==> BalanceOf(accounts[i]) == 0
    ensures TotalBalance(accounts) == 0
    decreases |accounts|
  {
    if |accounts| > 0 {
      TotalBalanceIgnoresEmpty(accounts[..|accounts| - 1]);
    }
  }

  /** The `reduce` loop over the accounts, shown to compute the total. */
  method SumBalances(accounts: seq<Account>) returns (total: int)
    ensures total == TotalBalance(accounts)
  {
    total := 0;
    var k := 0;
    while k < |accounts|
      invariant 0 <= k <= |accounts|
      invariant total == TotalBalance(accounts[..k])
    {
      assert accounts[..k + 1][..k] == accounts[..k];
      total := total + BalanceOf(accounts[k]);
      k := k + 1;
    }
    assert accounts[..k] == accounts;
  }

  function AccountsClause(count: nat): string {
    AccountsLead + NatToString(count) + AccountsTrail
  }

  function BalanceClause(total: int): string {
    BalanceLead + FormatMinor(total) + BalanceTrail
  }

  /* ---------------------------------------------------------------------- */
  /*  Budgets                                                                */
  /* ---------------------------------------------------------------------- */

  function BudgetLabel(b: Category): string {
    OrElse(b.name, Unnamed)
  }

  /** Every category's label, in input order; none is empty. */
  function BudgetLabels(budgets: seq<Category>): (r: seq<string>)
    ensures |r| == |budgets|
    ensures forall i :: 0 <= i < |budgets| ==> r[i] == BudgetLabel(budgets[i]) && r[i] != ""
    decreases |budgets|
  {
    if |budgets| == 0 then [] else [BudgetLabel(budgets[0])] + BudgetLabels(budgets[1..])
  }

  /** The budget sentence: the fixed "no data" sentence exactly when there
      are no categories, otherwise the list of labels. */
  function BudgetSection(budgets: seq<Category>): (r: string)
    ensures r == NoBudgets <==> |budgets| == 0
    ensures |budgets| > 0 ==> BudgetsLead <= r
  {
    if |budgets| > 0 then
      var r := BudgetsLead + Join(BudgetLabels(budgets), BudgetSep) + ".";
      assert r[0] == BudgetsLead[0] != NoBudgets[0];
      r
    else NoBudgets
  }

  /* ---------------------------------------------------------------------- */
  /*  Transactions                                                           */
  /* ---------------------------------------------------------------------- */

  /** One listed transaction: `date: payee - $amount`. */
  function TxLine(t: Txn): string {
    OrElse(t.date, UnknownDate) + ": " + OrElse(t.importedPayee, UnknownPayee)
      + " - $" + FormatMinor(AmountOrZero(t.amount))
  }

  function TxLines(ts: seq<Txn>): (r: seq<string>)
    ensures |r| == |ts|
    ensures forall i :: 0 <= i < |ts| ==> r[i] == TxLine(ts[i])
    decreases |ts|
  {
    if |ts| == 0 then [] else [TxLine(ts[0])] + TxLines(ts[1..])
  }

  /** The listed transactions: exactly the first `min(5, n)`, in input order. */
  function RecentLines(txs: seq<Txn>): (r: seq<string>)
    ensures |r| == Min(RecentLimit, |txs|)
    ensures forall i :: 0 <= i < |r| ==> r[i] == TxLine(txs[i])
  {
    TxLines(txs[..Min(RecentLimit, |txs|)])
  }

  /** The transaction sentence: the fixed "none" sentence exactly when there
      are no transactions, otherwise the list of lines. */
  function RecentSection(txs: seq<Txn>): (r: string)
    ensures r == NoTransactions <==> |txs| == 0
    ensures |txs| > 0 ==> RecentLead <= r
  {
    if |txs| > 0 then
      var r := RecentLead + Join(RecentLines(txs), LineSep) + ".";
      assert r[0] == RecentLead[0] != NoTransactions[0];
      r
    else NoTransactions
  }

  /** The amount of a listed transaction is the text after its last `$`. */
  function LineAmount(line: string): Option<int> {
    ParseMinor(AfterLast(line, '$'))
  }

  /** The date label of a listed transaction is the text before its first `": "`. */
  function LineDate(line: string): string {
    SplitOn(line, ": ")[0]
  }

  lemma AmountHasNoDollar(n: int)
    ensures NoChar(FormatMinor(n), '$')
  {
    var r := FormatMinor(n);
    forall i | 0 <= i < |r| ensures r[i] != '$' {
      assert AmountChar(r[i]);
    }
  }

  /** Each line shows the transaction's amount, a missing amount as zero. */
  lemma LineAmountOfTxLine(t: Txn)
    ensures LineAmount(TxLine(t)) == Some(AmountOrZero(t.amount))
  {
    var amount := FormatMinor(AmountOrZero(t.amount));
    var front := OrElse(t.date, UnknownDate) + ": " + OrElse(t.importedPayee, UnknownPayee) + " -";
    assert TxLine(t) == front + " " + ['$'] + amount;
    AmountHasNoDollar(AmountOrZero(t.amount));
    AfterLastConcat(front + " ", '$', amount);
    ParseFormatMinor(AmountOrZero(t.amount));
  }

  /** Each line starts with the transaction's date, or "Unknown date", when
      that label holds no colon. */
  lemma LineDateOfTxLine(t: Txn)
    requires NoChar(OrElse(t.date, UnknownDate), ':')
    ensures LineDate(TxLine(t)) == OrElse(t.date, UnknownDate)
  {
    var d := OrElse(t.date, UnknownDate);
    var rest := OrElse(t.importedPayee, UnknownPayee) + " - $" + FormatMinor(AmountOrZero(t.amount));
    assert TxLine(t) == d + (": " + rest);
    SplitSkips(d, ": " + rest, ": ", "");
    assert "" + d == d;
    SplitAtSep(rest, ": ", d);
  }

  /** The payee label of a listed transaction: what lies between the date
      label with its `": "` and the `" - $"` before the amount. */
  function LinePayee(line: string): Option<string> {
    var rest :- StripPrefix(line, LineDate(line) + ": ");
    StripSuffix(rest, " - $" + AfterLast(line, '$'))
  }

  /** Each line names the transaction's imported payee, or "Unknown payee",
      when the date label holds no colon. */
  lemma LinePayeeOfTxLine(t: Txn)
    requires NoChar(OrElse(t.date, UnknownDate), ':')
    ensures LinePayee(TxLine(t)) == Some(OrElse(t.importedPayee, UnknownPayee))
  {
    var d := OrElse(t.date, UnknownDate);
    var p := OrElse(t.importedPayee, UnknownPayee);
    var amount := FormatMinor(AmountOrZero(t.amount));
    var line := TxLine(t);
    LineDateOfTxLine(t);
    assert line == (d + ": ") + (p + (" - $" + amount));
    StripPrefixConcat(d + ": ", p + (" - $" + amount));
    assert line == (d + ": " + p + " -") + " " + ['$'] + amount;
    AmountHasNoDollar(AmountOrZero(t.amount));
    AfterLastConcat(d + ": " + p + " -" + " ", '$', amount);
    StripSuffixConcat(p, " - $" + amount);
  }

  /* ---------------------------------------------------------------------- */
  /*  The whole prompt                                                       */
  /* ---------------------------------------------------------------------- */

  /** The sentences of the personal-data part, in template order. */
  function Pieces(snap: Snapshot): seq<string> {
    [" ",
     AccountsClause(|snap.accounts|),
     BalanceClause(TotalBalance(snap.accounts)),
     BudgetSection(snap.budgets),
     RecentSection(snap.transactions),
     Closing]
  }

  function Details(snap: Snapshot): string {
    Join(Pieces(snap), Indent) + Tail
  }

  /** `createSystemPrompt().content`. With the flag off, the fixed instruction
      and nothing that depends on the snapshot; with it on, the instruction
      extended by the summary. */
  function SystemContent(includePersonalData: bool, snap: Snapshot): (r: string)
    ensures !includePersonalData ==> r == BaseInstruction
    ensures includePersonalData ==> BaseInstruction < r
  {
    if includePersonalData then BaseInstruction + Details(snap) else BaseInstruction
  }

  /** `createSystemPrompt()`: the content under the `system` role. */
  function SystemMessage(includePersonalData: bool, snap: Snapshot): (r: WireMessage)
    ensures r.role == SystemRole
    ensures !includePersonalData ==> r.content == BaseInstruction
  {
    WireMessage(SystemRole, SystemContent(includePersonalData, snap))
  }

  /** With the flag off the prompt is the same whatever the snapshot holds. */
  lemma PrivatePromptIndependent(s1: Snapshot, s2: Snapshot)
    ensures SystemMessage(false, s1) == SystemMessage(false, s2)
  {
  }

  /** The personal-data part spelled out as the template literal lays it out. */
  lemma DetailsLayout(snap: Snapshot)
    ensures Details(snap) ==
      " " + Indent + AccountsClause(|snap.accounts|)
      + Indent + BalanceClause(TotalBalance(snap.accounts))
      + Indent + BudgetSection(snap.budgets)
      + Indent + RecentSection(snap.transactions)
      + Indent + Closing + Tail
  {
    JoinSix(" ", AccountsClause(|snap.accounts|), BalanceClause(TotalBalance(snap.accounts)),
            BudgetSection(snap.budgets), RecentSection(snap.transactions), Closing, Indent);
  }

  /** The prompt for an empty snapshot with the flag on. */
  lemma EmptySnapshotPrompt()
    ensures SystemContent(true, Snapshot([], [], [])) ==
      BaseInstruction + (" " + Indent + "The user has 0 accounts "
      + Indent + "with a total combined balance of 0.00. "
      + Indent + "No budget data available."
      + Indent + "No recent transactions."
      + Indent + Closing + Tail)
  {
    var snap := Snapshot([], [], []);
    DetailsLayout(snap);
    assert TotalBalance([]) == 0;
    assert BudgetSection([]) == NoBudgets;
    assert RecentSection([]) == NoTransactions;
    assert AccountsClause(0) == "The user has 0 accounts " by {
      assert NatToString(0) == "0";
    }
    assert BalanceClause(0) == "with a total combined balance of 0.00. " by {
      FormatMinorExampleZero();
    }
  }

  /* ---------------------------------------------------------------------- */
  /*  Reading the prompt back                                                */
  /* ---------------------------------------------------------------------- */

  /** What the personal-data part tells the assistant. */
  datatype Summary = Summary(
    accountCount: nat,
    totalMinor: int,
    budgetLabels: seq<string>,
    recentLines: seq<string>)

  function Summarize(snap: Snapshot): Summary {
    Summary(|snap.accounts|, TotalBalance(snap.accounts), BudgetLabels(snap.budgets),
            RecentLines(snap.transactions))
  }

  function ReadCount(piece: string): Option<nat> {
    var t :- StripPrefix(piece, AccountsLead);
    var digits :- StripSuffix(t, AccountsTrail);
    ParseNat(digits)
  }

  function ReadTotal(piece: string): Option<int> {
    var t :- StripPrefix(piece, BalanceLead);
    var amount :- StripSuffix(t, BalanceTrail);
    ParseMinor(amount)
  }

  /** Reads a list section: the fixed sentence `empty`, or `lead`, the items
      separated by `sep`, and a closing full stop. */
  function ReadList(section: string, lead: string, sep: string, empty: string): Option<seq<string>>
    requires |sep| > 0
  {
    if section == empty then Some([])
    else
      var t :- StripPrefix(section, lead);
      var items :- StripSuffix(t, ".");
      Some(SplitOn(items, sep))
  }

  /** Reads a system prompt back into the summary it states; fails on any
      text that is not a personal-data prompt. */
  function ReadPrompt(content: string): Option<Summary> {
    var details :- StripPrefix(content, BaseInstruction);
    var body :- StripSuffix(details, Tail);
    var p := SplitOn(body, Indent);
    if |p| != 6 || p[0] != " " || p[5] != Closing then None
    else
      var count :- ReadCount(p[1]);
      var total :- ReadTotal(p[2]);
      var labels :- ReadList(p[3], BudgetsLead, BudgetSep, NoBudgets);
      var lines :- ReadList(p[4], RecentLead, LineSep, NoTransactions);
      Some(Summary(count, total, labels, lines))
  }

  /** A field whose text holds neither a line break nor `c`. */
  predicate PlainField(s: Option<string>, c: char) {
    s.None? || (NoChar(s.value, '\n') && NoChar(s.value, c))
  }

  /** The snapshot text that keeps the prompt unambiguous: no budget name
      holds a line break or a comma, and no listed transaction's date or
      payee holds a line break or a semicolon. */
  predicate Readable(snap: Snapshot) {
    && (forall i :: 0 <= i < |snap.budgets| ==> PlainField(snap.budgets[i].name, ','))
    && (forall i :: 0 <= i < Min(RecentLimit, |snap.transactions|) ==>
          PlainField(snap.transactions[i].date, ';') && PlainField(snap.transactions[i].importedPayee, ';'))
  }

  lemma OrElsePlain(s: Option<string>, fallback: string, c: char)
    requires PlainField(s, c) && NoChar(fallback, '\n') && NoChar(fallback, c)
    ensures NoChar(OrElse(s, fallback), '\n') && NoChar(OrElse(s, fallback), c)
  {
  }

  lemma AmountPlain(n: int, c: char)
    requires !AmountChar(c)
    ensures NoChar(FormatMinor(n), c)
  {
    var r := FormatMinor(n);
    forall i | 0 <= i < |r| ensures r[i] != c {
      assert AmountChar(r[i]);
    }
  }

  lemma TxLinePlain(t: Txn, c: char)
    requires PlainField(t.date, c) && PlainField(t.importedPayee, c)
    requires c == ';' || c == '\n'
    ensures NoChar(TxLine(t), c)
  {
    var d := OrElse(t.date, UnknownDate);
    var p := OrElse(t.importedPayee, UnknownPayee);
    var a := FormatMinor(AmountOrZero(t.amount));
    OrElsePlain(t.date, UnknownDate, c);
    OrElsePlain(t.importedPayee, UnknownPayee, c);
    AmountPlain(AmountOrZero(t.amount), c);
    NoCharConcat(d, ": ", c);
    NoCharConcat(d + ": ", p, c);
    NoCharConcat(d + ": " + p, " - $", c);
    NoCharConcat(d + ": " + p + " - $", a, c);
  }

  lemma UnnamedPlain()
    ensures NoChar(Unnamed, ',') && NoChar(Unnamed, '\n')
  {
  }

  lemma LabelsPlain(budgets: seq<Category>, c: char)
    requires forall i :: 0 <= i < |budgets| ==> PlainField(budgets[i].name, ',')
    requires c == ',' || c == '\n'
    ensures NoCharIn(BudgetLabels(budgets), c)
  {
    var r := BudgetLabels(budgets);
    forall k | 0 <= k < |r| ensures NoChar(r[k], c) {
      var name := budgets[k].name;
      assert PlainField(name, ',');
      UnnamedPlain();
      OrElsePlain(name, Unnamed, ',');
      assert r[k] == OrElse(name, Unnamed);
    }
  }

  lemma LinesPlain(txs: seq<Txn>, c: char)
    requires forall i :: 0 <= i < Min(RecentLimit, |txs|) ==>
      PlainField(txs[i].date, ';') && PlainField(txs[i].importedPayee, ';')
    requires c == ';' || c == '\n'
    ensures NoCharIn(RecentLines(txs), c)
  {
    var r := RecentLines(txs);
    forall k | 0 <= k < |r| ensures NoChar(r[k], c) {
      TxLinePlain(txs[k], c);
    }
  }

  lemma ReadCountClause(n: nat)
    ensures ReadCount(AccountsClause(n)) == Some(n)
  {
    var digits := NatToString(n);
    assert AccountsClause(n) == AccountsLead + (digits + AccountsTrail);
    StripPrefixConcat(AccountsLead, digits + AccountsTrail);
    StripSuffixConcat(digits, AccountsTrail);
  }

  lemma ReadTotalClause(total: int)
    ensures ReadTotal(BalanceClause(total)) == Some(total)
  {
    var amount := FormatMinor(total);
    assert BalanceClause(total) == BalanceLead + (amount + BalanceTrail);
    StripPrefixConcat(BalanceLead, amount + BalanceTrail);
    StripSuffixConcat(amount, BalanceTrail);
    ParseFormatMinor(total);
  }

  /** A list section reads back to its items when no item holds the
      separator's first character. */
  lemma ReadListJoin(parts: seq<string>, lead: string, sep: string, empty: string)
    requires |parts| > 0 && |sep| > 0 && NoCharIn(parts, sep[0])
    requires |lead| > 0 && |empty| > 0 && lead[0] != empty[0]
    ensures ReadList(lead + Join(parts, sep) + ".", lead, sep, empty) == Some(parts)
  {
    var items := Join(parts, sep);
    var section := lead + items + ".";
    assert section == lead + (items + ".");
    assert section[0] == lead[0];
    assert section != empty;
    StripPrefixConcat(lead, items + ".");
    StripSuffixConcat(items, ".");
    SplitJoin(parts, sep);
  }

  lemma ReadBudgetSection(budgets: seq<Category>)
    requires forall i :: 0 <= i < |budgets| ==> PlainField(budgets[i].name, ',')
    ensures ReadList(BudgetSection(budgets), BudgetsLead, BudgetSep, NoBudgets) == Some(BudgetLabels(budgets))
  {
    if |budgets| > 0 {
      LabelsPlain(budgets, ',');
      ReadListJoin(BudgetLabels(budgets), BudgetsLead, BudgetSep, NoBudgets);
    }
  }

  lemma ReadRecentSection(txs: seq<Txn>)
    requires forall i :: 0 <= i < Min(RecentLimit, |txs|) ==>
      PlainField(txs[i].date, ';') && PlainField(txs[i].importedPayee, ';')
    ensures ReadList(RecentSection(txs), RecentLead, LineSep, NoTransactions) == Some(RecentLines(txs))
  {
    if |txs| > 0 {
      LinesPlain(txs, ';');
      ReadListJoin(RecentLines(txs), RecentLead, LineSep, NoTransactions);
    }
  }

  lemma AccountsClausePlain(n: nat)
    ensures NoChar(AccountsClause(n), '\n')
  {
    var d := NatToString(n);
    assert NoChar(d, '\n');
    NoCharConcat(AccountsLead, d, '\n');
    NoCharConcat(AccountsLead + d, AccountsTrail, '\n');
  }

  lemma BalanceClausePlain(total: int)
    ensures NoChar(BalanceClause(total), '\n')
  {
    var a := FormatMinor(total);
    AmountPlain(total, '\n');
    NoCharConcat(BalanceLead, a, '\n');
    NoCharConcat(BalanceLead + a, BalanceTrail, '\n');
  }

  /** A list section holds no line break when its items hold none. */
  lemma ListSectionPlain(parts: seq<string>, lead: string, sep: string)
    requires NoCharIn(parts, '\n') && NoChar(lead, '\n') && NoChar(sep, '\n')
    ensures NoChar(lead + Join(parts, sep) + ".", '\n')
  {
    JoinNoChar(parts, sep, '\n');
    NoCharConcat(lead, Join(parts, sep), '\n');
    NoCharConcat(lead + Join(parts, sep), ".", '\n');
  }

  lemma BudgetSectionPlain(budgets: seq<Category>)
    requires forall i :: 0 <= i < |budgets| ==> PlainField(budgets[i].name, ',')
    ensures NoChar(BudgetSection(budgets), '\n')
  {
    if |budgets| > 0 {
      assert BudgetSection(budgets) == BudgetsLead + Join(BudgetLabels(budgets), BudgetSep) + ".";
      LabelsPlain(budgets, '\n');
      ListSectionPlain(BudgetLabels(budgets), BudgetsLead, BudgetSep);
    }
  }

  lemma RecentSectionPlain(txs: seq<Txn>)
    requires forall i :: 0 <= i < Min(RecentLimit, |txs|) ==>
      PlainField(txs[i].date, ';') && PlainField(txs[i].importedPayee, ';')
    ensures NoChar(RecentSection(txs), '\n')
  {
    if |txs| > 0 {
      assert RecentSection(txs) == RecentLead + Join(RecentLines(txs), LineSep) + ".";
      LinesPlain(txs, '\n');
      assert NoChar(RecentLead, '\n');
      ListSectionPlain(RecentLines(txs), RecentLead, LineSep);
    }
  }

  /** Shown part by part: `Closing` is written as four literals. */
  lemma ClosingPlain()
    ensures NoChar(Closing, '\n')
  {
    var a, b := "Use this data ", "to provide ";
    var c, d := "personalized ", "assistance when relevant.";
    assert NoChar(a, '\n') && NoChar(b, '\n') && NoChar(c, '\n') && NoChar(d, '\n');
    NoCharConcat(a, b, '\n');
    NoCharConcat(a + b, c, '\n');
    NoCharConcat(a + b + c, d, '\n');
  }

  /** No sentence of the personal-data part holds a line break. */
  lemma PiecesPlain(snap: Snapshot)
    requires Readable(snap)
    ensures NoCharIn(Pieces(snap), '\n')
  {
    AccountsClausePlain(|snap.accounts|);
    BalanceClausePlain(TotalBalance(snap.accounts));
    BudgetSectionPlain(snap.budgets);
    RecentSectionPlain(snap.transactions);
    ClosingPlain();
    var p := Pieces(snap);
    assert NoChar(" ", '\n');
    forall k | 0 <= k < |p| ensures NoChar(p[k], '\n') {
    }
  }

  /** The personal-data prompt states the account count, the combined
      balance, every budget label and every listed transaction line, and
      they can all be read back from it. */
  lemma ReadPromptRoundTrip(snap: Snapshot)
    requires Readable(snap)
    ensures ReadPrompt(SystemContent(true, snap)) == Some(Summarize(snap))
  {
    var pieces := Pieces(snap);
    var body := Join(pieces, Indent);
    StripPrefixConcat(BaseInstruction, Details(snap));
    StripSuffixConcat(body, Tail);
    PiecesPlain(snap);
    SplitJoin(pieces, Indent);
    ReadCountClause(|snap.accounts|);
    ReadTotalClause(TotalBalance(snap.accounts));
    ReadBudgetSection(snap.budgets);
    ReadRecentSection(snap.transactions);
  }

  /** Nothing can be read back from the prompt sent with the flag off. */
  lemma ReadPrivatePrompt(snap: Snapshot)
    ensures ReadPrompt(SystemContent(false, snap)) == None
  {
    StripPrefixConcat(BaseInstruction, "");
    assert BaseInstruction + "" == BaseInstruction;
  }
}
