/** Specification functions over the stored sequence of transactions, and the
    properties of deleting by id and of the monthly summary proved about them. */
module Ledger {
  import opened Transaction

  // ---------------------------------------------------------------------
  // Delete by id
  // ---------------------------------------------------------------------

  /** The index of the first transaction whose id is `id`, if there is one. */
  function FirstIndexOf(txs: seq<Transaction>, id: string): (r: Option<nat>)
    ensures r.Some? ==> r.value < |txs| && txs[r.value].id == id
    ensures r.Some? ==> forall j :: 0 <= j < r.value ==> txs[j].id != id
    ensures r.None? <==> forall j :: 0 <= j < |txs| ==> txs[j].id != id
  {
    if txs == [] then None
    else if txs[0].id == id then Some(0)
    else
      match FirstIndexOf(txs[1..], id)
      case None => None
      case Some(i) => Some(i + 1)
  }

  /** The sequence with the element at index `i` spliced out. */
  function RemoveAt(txs: seq<Transaction>, i: nat): (r: seq<Transaction>)
    requires i < |txs|
    ensures |r| == |txs| - 1
    ensures forall j :: 0 <= j < i ==> r[j] == txs[j]
    ensures forall j :: i < j < |txs| ==> r[j - 1] == txs[j]
    ensures multiset(r) + multiset{txs[i]} == multiset(txs)
  {
    assert txs == txs[..i] + [txs[i]] + txs[i + 1..];
    txs[..i] + txs[i + 1..]
  }

  /** What deleting `id` answers and leaves behind: the first match is removed,
      or NotFound with the sequence untouched. */
  function DeleteById(txs: seq<Transaction>, id: string): (r: (DeleteResponse, seq<Transaction>))
    ensures r.0 == Deleted <==> exists j :: 0 <= j < |txs| && txs[j].id == id
    ensures r.0 == NotFound ==> r.1 == txs
    ensures r.0 == Deleted ==> |r.1| == |txs| - 1
  {
    match FirstIndexOf(txs, id)
    case None => (NotFound, txs)
    case Some(i) => (Deleted, RemoveAt(txs, i))
  }

  /** The number of stored transactions carrying `id`. */
  function CountId(txs: seq<Transaction>, id: string): nat
  {
    if txs == [] then 0
    else (if txs[0].id == id then 1 else 0) + CountId(txs[1..], id)
  }

  lemma {:induction false} CountIdAppend(a: seq<Transaction>, b: seq<Transaction>, id: string)
    ensures CountId(a + b, id) == CountId(a, id) + CountId(b, id)
  {
    if a == [] {
      assert a + b == b;
    } else {
      assert (a + b)[1..] == a[1..] + b;
      CountIdAppend(a[1..], b, id);
    }
  }

  /** No transaction carries `id` exactly when the count is zero. */
  lemma {:induction false} CountIdZero(txs: seq<Transaction>, id: string)
    ensures CountId(txs, id) == 0 <==> forall j :: 0 <= j < |txs| ==> txs[j].id != id
  {
    if txs != [] {
      CountIdZero(txs[1..], id);
      assert forall j :: 1 <= j < |txs| ==> txs[j] == txs[1..][j - 1];
    }
  }

  /** A successful delete removes exactly one transaction carrying the id. */
  lemma DeleteRemovesOne(txs: seq<Transaction>, id: string)
    requires DeleteById(txs, id).0 == Deleted
    ensures CountId(DeleteById(txs, id).1, id) == CountId(txs, id) - 1
  {
    var i := FirstIndexOf(txs, id).value;
    assert txs == txs[..i] + [txs[i]] + txs[i + 1..];
    CountIdAppend(txs[..i] + [txs[i]], txs[i + 1..], id);
    CountIdAppend(txs[..i], [txs[i]], id);
    CountIdAppend(txs[..i], txs[i + 1..], id);
  }

  /** Every transaction carrying the id other than the first one survives the
      delete: later duplicates stay. */
  lemma DeleteKeepsLaterDuplicates(txs: seq<Transaction>, id: string, j: nat)
    requires j < |txs| && txs[j].id == id && FirstIndexOf(txs, id) != Some(j)
    ensures txs[j] in DeleteById(txs, id).1
  {
    var i := FirstIndexOf(txs, id).value;
    assert i < j;
    assert DeleteById(txs, id).1[j - 1] == txs[j];
  }

  /** With ids unique, the first delete succeeds and removes the id entirely,
      so deleting it again answers NotFound and changes nothing. */
  lemma DeleteTwice(txs: seq<Transaction>, id: string)
    requires CountId(txs, id) == 1
    ensures DeleteById(txs, id).0 == Deleted
    ensures forall j :: 0 <= j < |DeleteById(txs, id).1| ==> DeleteById(txs, id).1[j].id != id
    ensures DeleteById(DeleteById(txs, id).1, id) == (NotFound, DeleteById(txs, id).1)
  {
    CountIdZero(txs, id);
    DeleteRemovesOne(txs, id);
    CountIdZero(DeleteById(txs, id).1, id);
  }

  // ---------------------------------------------------------------------
  // Add
  // ---------------------------------------------------------------------

  /** An added record whose fresh id no stored transaction carries appears
      exactly once with that id afterwards. */
  lemma AddedOnce(txs: seq<Transaction>, t: Transaction, newId: string)
    requires forall j :: 0 <= j < |txs| ==> txs[j].id != newId
    ensures CountId(txs + [t.(id := newId)], newId) == 1
  {
    CountIdZero(txs, newId);
    CountIdAppend(txs, [t.(id := newId)], newId);
  }

  /** Deleting the fresh id of a just-added record undoes the add. */
  lemma AddThenDelete(txs: seq<Transaction>, t: Transaction, newId: string)
    requires forall j :: 0 <= j < |txs| ==> txs[j].id != newId
    ensures DeleteById(txs + [t.(id := newId)], newId) == (Deleted, txs)
  {
    var s := txs + [t.(id := newId)];
    assert s[|txs|].id == newId;
    assert FirstIndexOf(s, newId) == Some(|txs|);
    assert s[..|txs|] == txs && s[|txs| + 1..] == [];
    assert RemoveAt(s, |txs|) == txs;
  }

  // ---------------------------------------------------------------------
  // Monthly summary
  // ---------------------------------------------------------------------

  /** The (month, year) groups present among the transactions. */
  function GroupKeys(txs: seq<Transaction>): set<GroupKey>
  {
    set t | t in txs :: KeyOf(t)
  }

  /** The amount `t` adds to the `kind` total of group `key`. */
  function Contribution(t: Transaction, key: GroupKey, kind: string): real
  {
    if KeyOf(t) == key && t.kind == kind then t.amount else 0.0
  }

  /** The sum of the amounts of the `kind` transactions of group `key`. */
  function SumWhere(txs: seq<Transaction>, key: GroupKey, kind: string): real
    decreases |txs|
  {
    if txs == [] then 0.0
    else SumWhere(txs[..|txs| - 1], key, kind) + Contribution(txs[|txs| - 1], key, kind)
  }

  /** The summary record the source reports for group `key`. */
  function SummaryFor(txs: seq<Transaction>, key: GroupKey): MonthlySummary
  {
    var income := SumWhere(txs, key, Income);
    var expenses := SumWhere(txs, key, Expense);
    MonthlySummary(MonthName(key.month), key.year, income, expenses, income - expenses)
  }

  lemma GroupKeysAppend(a: seq<Transaction>, t: Transaction)
    ensures GroupKeys(a + [t]) == GroupKeys(a) + {KeyOf(t)}
  {
    assert forall u :: u in a + [t] <==> u in a || u == t;
  }

  /** There are never more groups than transactions. */
  lemma {:induction false} GroupKeysBound(txs: seq<Transaction>)
    ensures |GroupKeys(txs)| <= |txs|
  {
    if txs != [] {
      var init := txs[..|txs| - 1];
      assert txs == init + [txs[|txs| - 1]];
      GroupKeysAppend(init, txs[|txs| - 1]);
      GroupKeysBound(init);
    }
  }

  lemma {:induction false} SumWhereAppend(a: seq<Transaction>, b: seq<Transaction>, key: GroupKey, kind: string)
    ensures SumWhere(a + b, key, kind) == SumWhere(a, key, kind) + SumWhere(b, key, kind)
    decreases |b|
  {
    if b == [] {
      assert a + b == a;
    } else {
      var init := b[..|b| - 1];
      assert (a + b)[..|a + b| - 1] == a + init;
      SumWhereAppend(a, init, key, kind);
    }
  }

  /** A group with no transaction has zero totals. */
  lemma {:induction false} SumWhereAbsent(txs: seq<Transaction>, key: GroupKey, kind: string)
    requires key !in GroupKeys(txs)
    ensures SumWhere(txs, key, kind) == 0.0
    decreases |txs|
  {
    if txs != [] {
      var init := txs[..|txs| - 1];
      assert txs == init + [txs[|txs| - 1]];
      GroupKeysAppend(init, txs[|txs| - 1]);
      SumWhereAbsent(init, key, kind);
    }
  }

  /** Extending the processed prefix by one transaction changes only its own
      group, and that only in the total its kind names. */
  lemma SummaryStep(a: seq<Transaction>, t: Transaction)
    ensures GroupKeys(a + [t]) == GroupKeys(a) + {KeyOf(t)}
    ensures forall key, kind :: SumWhere(a + [t], key, kind) == SumWhere(a, key, kind) + Contribution(t, key, kind)
  {
    GroupKeysAppend(a, t);
    assert (a + [t])[..|a|] == a;
  }

  lemma SumWhereSnoc(a: seq<Transaction>, t: Transaction, key: GroupKey, kind: string)
    ensures SumWhere(a + [t], key, kind) == SumWhere(a, key, kind) + Contribution(t, key, kind)
  {
    assert (a + [t])[..|a|] == a;
  }

  lemma {:induction false} SumWhereSplice(s: seq<Transaction>, j: nat, key: GroupKey, kind: string)
    requires j < |s|
    ensures SumWhere(s, key, kind) == SumWhere(s[..j] + s[j + 1..], key, kind) + Contribution(s[j], key, kind)
    decreases |s|
  {
    var init, last := s[..|s| - 1], s[|s| - 1];
    assert s == init + [last];
    SumWhereSnoc(init, last, key, kind);
    if j == |s| - 1 {
      assert s[..j] + s[j + 1..] == init;
    } else {
      var rest := init[..j] + init[j + 1..];
      assert s[..j] + s[j + 1..] == rest + [last];
      SumWhereSplice(init, j, key, kind);
      SumWhereSnoc(rest, last, key, kind);
    }
  }

  /** Removing the transaction at index `j` (what a delete does) takes exactly
      its contribution out of the totals. */
  lemma SumWhereRemove(s: seq<Transaction>, j: nat, key: GroupKey, kind: string)
    requires j < |s|
    ensures SumWhere(s, key, kind) == SumWhere(RemoveAt(s, j), key, kind) + Contribution(s[j], key, kind)
  {
    SumWhereSplice(s, j, key, kind);
  }

  lemma MultisetCancel(m: multiset<Transaction>, n: multiset<Transaction>, x: Transaction)
    requires m + multiset{x} == n + multiset{x}
    ensures m == n
  {
    forall y ensures m[y] == n[y] {
      assert (m + multiset{x})[y] == (n + multiset{x})[y];
    }
  }

  /** A total depends only on which transactions are stored, not on their
      order. */
  lemma {:induction false} SumWherePermutation(a: seq<Transaction>, b: seq<Transaction>, key: GroupKey, kind: string)
    requires multiset(a) == multiset(b)
    ensures SumWhere(a, key, kind) == SumWhere(b, key, kind)
    decreases |a|
  {
    if a == [] {
      assert |b| == |multiset(b)| == 0;
    } else {
      var init, x := a[..|a| - 1], a[|a| - 1];
      assert a == init + [x];
      SumWhereSnoc(init, x, key, kind);
      assert x in b by {
        assert x in multiset(a);
      }
      var j :| 0 <= j < |b| && b[j] == x;
      var rest := b[..j] + b[j + 1..];
      SumWhereSplice(b, j, key, kind);
      assert b == b[..j] + [x] + b[j + 1..];
      assert multiset(b) == multiset(rest) + multiset{x};
      MultisetCancel(multiset(init), multiset(rest), x);
      SumWherePermutation(init, rest, key, kind);
    }
  }

  /** The summary is independent of storage order: permuting the transactions
      gives the same groups with the same records. */
  lemma SummaryOrderIndependent(a: seq<Transaction>, b: seq<Transaction>)
    requires multiset(a) == multiset(b)
    ensures GroupKeys(a) == GroupKeys(b)
    ensures forall key :: SummaryFor(a, key) == SummaryFor(b, key)
  {
    assert forall t :: t in a <==> t in multiset(a);
    forall key ensures SummaryFor(a, key) == SummaryFor(b, key) {
      SumWherePermutation(a, b, key, Income);
      SumWherePermutation(a, b, key, Expense);
    }
  }

  /** A transaction of any kind other than income or expense still creates its
      group, with zero totals if new, and changes no total. */
  lemma OtherKindOnlyCreatesGroup(txs: seq<Transaction>, t: Transaction)
    requires t.kind != Income && t.kind != Expense
    ensures GroupKeys(txs + [t]) == GroupKeys(txs) + {KeyOf(t)}
    ensures forall key :: SummaryFor(txs + [t], key) == SummaryFor(txs, key)
    ensures KeyOf(t) !in GroupKeys(txs) ==>
      SummaryFor(txs + [t], KeyOf(t)) == MonthlySummary(MonthName(t.date.month), t.date.year, 0.0, 0.0, 0.0)
  {
    SummaryStep(txs, t);
    if KeyOf(t) !in GroupKeys(txs) {
      SumWhereAbsent(txs, KeyOf(t), Income);
      SumWhereAbsent(txs, KeyOf(t), Expense);
    }
  }
}
