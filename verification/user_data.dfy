/** The data hook behind the assistant's context: accounts, budget categories,
    payees, and recent transactions with split transactions flattened so that
    every subtransaction follows its parent. */
module UserData {
  import opened Wrappers

  /** An account; the core reads only its balance in minor units, which may be missing. */
  datatype Account = Account(balance: Option<int>)

  /** A budget category; the core reads only its name, which may be missing. */
  datatype Category = Category(name: Option<string>)

  datatype Payee = Payee(id: string, name: Option<string>)

  /** The parent reference a flattened subtransaction gains:
      `parent_id`, `parent_payee` and `parent_date`. */
  datatype ParentRef = ParentRef(id: string, payee: Option<string>, date: Option<string>)

  /** A transaction row as returned with split transactions grouped. */
  datatype Txn = Txn(
    id: string,
    date: Option<string>,
    payee: Option<string>,
    importedPayee: Option<string>,
    amount: Option<int>,
    subtransactions: Option<seq<Txn>>,
    parent: Option<ParentRef>)

  /** The subtransactions a row carries; an absent list and an empty one emit nothing. */
  function SubsOf(t: Txn): seq<Txn> {
    match t.subtransactions
    case Some(s) => s
    case None => []
  }

  function ParentOf(p: Txn): ParentRef {
    ParentRef(p.id, p.payee, p.date)
  }

  /** `{...sub, parent_id, parent_payee, parent_date}`: the subtransaction with
      every field of its own kept and the parent reference set. */
  function Tag(p: Txn, sub: Txn): (r: Txn)
    ensures r.parent == Some(ParentOf(p))
    ensures r.(parent := sub.parent) == sub
  {
    sub.(parent := Some(ParentOf(p)))
  }

  function TagAll(p: Txn, subs: seq<Txn>): (r: seq<Txn>)
    ensures |r| == |subs|
    ensures forall j :: 0 <= j < |subs| ==> r[j] == Tag(p, subs[j])
  {
    seq(|subs|, j requires 0 <= j < |subs| => Tag(p, subs[j]))
  }

  /** What one grouped row contributes: itself, then its tagged subtransactions. */
  function Expand(p: Txn): seq<Txn> {
    [p] + TagAll(p, SubsOf(p))
  }

  /** The number of subtransactions across all rows. */
  function SubCount(data: seq<Txn>): nat
    decreases |data|
  {
    if |data| == 0 then 0 else |SubsOf(data[0])| + SubCount(data[1..])
  }

  /** The `reduce` that ungroups split transactions. */
  function Flatten(data: seq<Txn>): (r: seq<Txn>)
    ensures |r| == |data| + SubCount(data)
    decreases |data|
  {
    if |data| == 0 then [] else Expand(data[0]) + Flatten(data[1..])
  }

  lemma {:induction false} SubCountAppend(a: seq<Txn>, b: seq<Txn>)
    ensures SubCount(a + b) == SubCount(a) + SubCount(b)
    decreases |a|
  {
    if |a| == 0 {
      assert a + b == b;
    } else {
      assert (a + b)[1..] == a[1..] + b;
      SubCountAppend(a[1..], b);
    }
  }

  /** Flattening works row by row: it distributes over concatenation. */
  lemma {:induction false} FlattenAppend(a: seq<Txn>, b: seq<Txn>)
    ensures Flatten(a + b) == Flatten(a) + Flatten(b)
    decreases |a|
  {
    if |a| == 0 {
      assert a + b == b;
    } else {
      assert (a + b)[0] == a[0];
      assert (a + b)[1..] == a[1..] + b;
      FlattenAppend(a[1..], b);
    }
  }

  /** Where row `i` lands in the flattened list: after the `i` earlier rows
      and all of their subtransactions. */
  function Offset(data: seq<Txn>, i: nat): nat
    requires i <= |data|
  {
    i + SubCount(data[..i])
  }

  /** A row's contribution placed after `a`: the row itself at position
      `|a|`, then its subtransactions in their original order, each tagged
      with the row. */
  lemma {:induction false} ExpandAt(out: seq<Txn>, a: seq<Txn>, row: Txn, c: seq<Txn>, off: nat)
    requires out == a + (Expand(row) + c) && off == |a|
    ensures off + |SubsOf(row)| < |out|
    ensures out[off] == row
    ensures forall j :: 0 <= j < |SubsOf(row)| ==> out[off + 1 + j] == Tag(row, SubsOf(row)[j])
  {
    var e := Expand(row);
    assert out[off] == e[0];
    forall j | 0 <= j < |SubsOf(row)|
      ensures out[off + 1 + j] == Tag(row, SubsOf(row)[j])
    {
      assert out[off + 1 + j] == e[1 + j];
    }
  }

  /** Row `i` sits at its offset in the flattened list. */
  lemma {:induction false} FlattenLayout(data: seq<Txn>, i: nat)
    requires i < |data|
    ensures Offset(data, i) + |SubsOf(data[i])| < |Flatten(data)|
    ensures Flatten(data)[Offset(data, i)] == data[i]
  {
    FlattenAround(data, i);
    ExpandAt(Flatten(data), Flatten(data[..i]), data[i], Flatten(data[i + 1..]), Offset(data, i));
  }

  /** The flattened list around row `i`: what the rows before it contribute,
      of length `Offset(data, i)`, then row `i`'s own contribution, then
      what the rows after it contribute. With `ExpandAt` this places row
      `i`'s tagged subtransactions right after it. */
  lemma {:induction false} FlattenAround(data: seq<Txn>, i: nat)
    requires i < |data|
    ensures Flatten(data) == Flatten(data[..i]) + (Expand(data[i]) + Flatten(data[i + 1..]))
    ensures |Flatten(data[..i])| == Offset(data, i)
  {
    var pre, row, post := data[..i], data[i], data[i + 1..];
    assert data == pre + ([row] + post);
    FlattenAppend(pre, [row] + post);
    FlattenAppend([row], post);
    assert [row][1..] == [];
  }

  /** The next row starts right after row `i` and its subtransactions. */
  lemma {:induction false} NextOffset(data: seq<Txn>, i: nat)
    requires i < |data|
    ensures Offset(data, i + 1) == Offset(data, i) + 1 + |SubsOf(data[i])|
  {
    assert data[..i + 1] == data[..i] + [data[i]];
    SubCountAppend(data[..i], [data[i]]);
    assert [data[i]][1..] == [];
  }

  /** The flattened list ends right after the last row's subtransactions. */
  lemma FlattenEnd(data: seq<Txn>)
    ensures Offset(data, |data|) == |Flatten(data)|
  {
    assert data[..|data|] == data;
  }

  /** Every emitted element is a row of the input or a subtransaction of one,
      tagged with that row as parent. */
  ghost predicate FromInput(data: seq<Txn>, x: Txn) {
    x in data
    || exists i, j :: 0 <= i < |data| && 0 <= j < |SubsOf(data[i])| && x == Tag(data[i], SubsOf(data[i])[j])
  }

  lemma {:induction false} FlattenProvenance(data: seq<Txn>)
    ensures forall k :: 0 <= k < |Flatten(data)| ==> FromInput(data, Flatten(data)[k])
    decreases |data|
  {
    if |data| > 0 {
      FlattenProvenance(data[1..]);
      var out := Flatten(data);
      var head := Expand(data[0]);
      forall k | 0 <= k < |out| ensures FromInput(data, out[k]) {
        if k == 0 {
          assert out[k] == data[0];
        } else if k < |head| {
          assert out[k] == Tag(data[0], SubsOf(data[0])[k - 1]);
        } else {
          var x := out[k];
          assert x == Flatten(data[1..])[k - |head|];
          assert FromInput(data[1..], x);
          if x in data[1..] {
            assert x in data;
          } else {
            var i, j :| 0 <= i < |data[1..]| && 0 <= j < |SubsOf(data[1..][i])|
              && x == Tag(data[1..][i], SubsOf(data[1..][i])[j]);
            assert data[1..][i] == data[i + 1];
          }
        }
      }
    }
  }

  /** Rows without subtransactions come through unchanged. */
  lemma {:induction false} FlattenWithoutSplits(data: seq<Txn>)
    requires forall i :: 0 <= i < |data| ==> SubsOf(data[i]) == []
    ensures Flatten(data) == data
    decreases |data|
  {
    if |data| > 0 {
      FlattenWithoutSplits(data[1..]);
      assert Expand(data[0]) == [data[0]];
    }
  }

  /** Flattening one more row appends that row's contribution. */
  lemma FlattenSnoc(data: seq<Txn>, k: nat)
    requires k < |data|
    ensures Flatten(data[..k + 1]) == Flatten(data[..k]) + Expand(data[k])
  {
    assert data[..k + 1] == data[..k] + [data[k]];
    FlattenAppend(data[..k], [data[k]]);
    assert [data[k]][1..] == [];
  }

  /** The inner `forEach`: pushes each subtransaction of `p`, tagged. */
  method PushTagged(result: seq<Txn>, p: Txn, subs: seq<Txn>) returns (out: seq<Txn>)
    ensures out == result + TagAll(p, subs)
  {
    out := result;
    var j := 0;
    while j < |subs|
      invariant 0 <= j <= |subs|
      invariant out == result + TagAll(p, subs[..j])
    {
      assert TagAll(p, subs[..j + 1]) == TagAll(p, subs[..j]) + [Tag(p, subs[j])];
      out := out + [Tag(p, subs[j])];
      j := j + 1;
    }
    assert subs[..j] == subs;
  }

  /** The `reduce`/`push` loop of the source, shown to compute `Flatten`. */
  method FlattenByPush(data: seq<Txn>) returns (result: seq<Txn>)
    ensures result == Flatten(data)
  {
    result := [];
    var k := 0;
    while k < |data|
      invariant 0 <= k <= |data|
      invariant result == Flatten(data[..k])
    {
      var prev := result;
      result := PushTagged(prev + [data[k]], data[k], SubsOf(data[k]));
      assert result == prev + Expand(data[k]);
      FlattenSnoc(data, k);
      k := k + 1;
    }
    assert data[..k] == data;
  }

  /** Outcome of the transactions query: rows, or a thrown error. */
  datatype QueryResult = Rows(data: seq<Txn>) | QueryFailed

  /** The transactions the hook holds after its effect runs for `accounts`:
      the query runs only when there is at least one account; a failed query
      empties the list; otherwise the list stays as it was (initially empty). */
  function RefreshTransactions(accounts: seq<Account>, current: seq<Txn>, query: QueryResult): (r: seq<Txn>)
    ensures |accounts| == 0 ==> r == current
    ensures |accounts| > 0 && query.QueryFailed? ==> r == []
    ensures |accounts| > 0 && query.Rows? ==> r == Flatten(query.data)
  {
    if |accounts| == 0 then current
    else match query
      case Rows(data) => Flatten(data)
      case QueryFailed => []
  }

  /** What the hook returns; `budgets` is the category list. */
  datatype HookResult = HookResult(
    accounts: seq<Account>,
    transactions: seq<Txn>,
    payees: seq<Payee>,
    budgets: seq<Category>)

  function UseUserData(accounts: seq<Account>, categories: seq<Category>, payees: seq<Payee>,
                       transactions: seq<Txn>): (r: HookResult)
    ensures r.budgets == categories
    ensures r.accounts == accounts && r.transactions == transactions && r.payees == payees
  {
    HookResult(accounts, transactions, payees, categories)
  }
}
