/**
 * The statistics the dashboard derives from the transaction list
 * (components/Dashboard.tsx): the three totals, the expense breakdown by
 * category that feeds the pie chart, and the recent-activity prefix.
 *
 * Every value here is a pure function of the list. The source computes the
 * totals and the breakdown with `filter` followed by a left-to-right
 * `reduce`; the folds below keep that shape, and the lemmas relate them to
 * plain reference sums.
 */
module Dashboard {
  import opened Types

  // ---------------------------------------------------------------------
  // Reference sums

  /** The sum of `amount` over a list. */
  function Sum(ts: seq<Transaction>): int
  {
    if ts == [] then 0 else ts[0].amount + Sum(ts[1..])
  }

  /** The sum of `amount` over the EXPENSE transactions of `ts` that carry category `c`. */
  function Spent(ts: seq<Transaction>, c: string): int
  {
    if ts == [] then 0
    else (if ts[0].txType == EXPENSE && ts[0].category == c then ts[0].amount else 0) + Spent(ts[1..], c)
  }

  /** Every transaction counted with its sign: income adds, an expense subtracts. */
  function Net(ts: seq<Transaction>): int
  {
    if ts == [] then 0
    else (if ts[0].txType == INCOME then ts[0].amount else -ts[0].amount) + Net(ts[1..])
  }

  lemma {:induction false} SumAppend(a: seq<Transaction>, b: seq<Transaction>)
    ensures Sum(a + b) == Sum(a) + Sum(b)
  {
    if a == [] {
      assert a + b == b;
    } else {
      assert (a + b)[1..] == a[1..] + b;
      SumAppend(a[1..], b);
    }
  }

  // ---------------------------------------------------------------------
  // The totals (Dashboard.tsx lines 13-21)

  /**
   * `list.reduce((sum, t) => sum + t.amount, acc)`: a left fold from `acc`,
   * which adds exactly the reference sum to its start value.
   */
  function SumFrom(acc: int, ts: seq<Transaction>): (r: int)
    ensures r == acc + Sum(ts)
    decreases ts
  {
    if ts == [] then acc else SumFrom(acc + ts[0].amount, ts[1..])
  }

  /** `list.filter(t => t.type === k)`: the transactions of kind `k`, in list order. */
  function OfType(ts: seq<Transaction>, k: TransactionType): (r: seq<Transaction>)
    ensures |r| <= |ts|
    ensures forall t :: t in r <==> t in ts && t.txType == k
  {
    if ts == [] then []
    else (if ts[0].txType == k then [ts[0]] else []) + OfType(ts[1..], k)
  }

  lemma {:induction false} OfTypeAppend(a: seq<Transaction>, b: seq<Transaction>, k: TransactionType)
    ensures OfType(a + b, k) == OfType(a, k) + OfType(b, k)
  {
    if a == [] {
      assert a + b == b;
    } else {
      assert (a + b)[1..] == a[1..] + b;
      OfTypeAppend(a[1..], b, k);
    }
  }

  /** `totalIncome`: the sum of `amount` over the INCOME transactions. */
  function TotalIncome(ts: seq<Transaction>): (r: int)
    ensures r == Sum(OfType(ts, INCOME))
  {
    SumFrom(0, OfType(ts, INCOME))
  }

  /** `totalExpenses`: the sum of `amount` over the EXPENSE transactions. */
  function TotalExpenses(ts: seq<Transaction>): (r: int)
    ensures r == Sum(OfType(ts, EXPENSE))
  {
    SumFrom(0, OfType(ts, EXPENSE))
  }

  /** Income and expense sums split the whole list: each transaction lands in exactly one. */
  lemma SumCons(t: Transaction, ts: seq<Transaction>)
    ensures Sum([t] + ts) == t.amount + Sum(ts)
  {
    assert ([t] + ts)[1..] == ts;
  }

  lemma {:induction false} IncomeExpensePartition(ts: seq<Transaction>)
    ensures Sum(OfType(ts, INCOME)) + Sum(OfType(ts, EXPENSE)) == Sum(ts)
    ensures Sum(OfType(ts, INCOME)) - Sum(OfType(ts, EXPENSE)) == Net(ts)
  {
    if ts != [] {
      var t, rest := ts[0], ts[1..];
      IncomeExpensePartition(rest);
      if t.txType == INCOME {
        assert OfType(ts, INCOME) == [t] + OfType(rest, INCOME);
        assert OfType(ts, EXPENSE) == OfType(rest, EXPENSE);
        SumCons(t, OfType(rest, INCOME));
      } else {
        assert OfType(ts, INCOME) == OfType(rest, INCOME);
        assert OfType(ts, EXPENSE) == [t] + OfType(rest, EXPENSE);
        SumCons(t, OfType(rest, EXPENSE));
      }
    }
  }

  /** `balance`: every income added and every expense subtracted. */
  function Balance(ts: seq<Transaction>): (r: int)
    ensures r == Net(ts)
    ensures r == TotalIncome(ts) - TotalExpenses(ts)
  {
    IncomeExpensePartition(ts);
    TotalIncome(ts) - TotalExpenses(ts)
  }

  /** The income and expense totals together account for every transaction's amount. */
  lemma TotalsCoverList(ts: seq<Transaction>)
    ensures TotalIncome(ts) + TotalExpenses(ts) == Sum(ts)
  {
    IncomeExpensePartition(ts);
  }

  /** The totals distribute over concatenation, so a newly prepended entry adds only its own amount. */
  lemma TotalsAppend(a: seq<Transaction>, b: seq<Transaction>)
    ensures TotalIncome(a + b) == TotalIncome(a) + TotalIncome(b)
    ensures TotalExpenses(a + b) == TotalExpenses(a) + TotalExpenses(b)
    ensures Balance(a + b) == Balance(a) + Balance(b)
  {
    OfTypeAppend(a, b, INCOME);
    OfTypeAppend(a, b, EXPENSE);
    SumAppend(OfType(a, INCOME), OfType(b, INCOME));
    SumAppend(OfType(a, EXPENSE), OfType(b, EXPENSE));
  }

  /** With non-negative amounts, as the entry form produces for non-negative input, both totals are non-negative. */
  lemma {:induction false} TotalsNonNegative(ts: seq<Transaction>)
    requires forall t :: t in ts ==> t.amount >= 0
    ensures TotalIncome(ts) >= 0 && TotalExpenses(ts) >= 0
  {
    SumNonNegative(OfType(ts, INCOME));
    SumNonNegative(OfType(ts, EXPENSE));
  }

  lemma {:induction false} SumNonNegative(ts: seq<Transaction>)
    requires forall t :: t in ts ==> t.amount >= 0
    ensures Sum(ts) >= 0
  {
    if ts != [] {
      assert ts[0] in ts;
      assert forall t :: t in ts[1..] ==> t in ts;
      SumNonNegative(ts[1..]);
    }
  }

  // ---------------------------------------------------------------------
  // The category breakdown (Dashboard.tsx lines 24-31)

  /**
   * A JavaScript object used as a `Record<string, number>`: its keys in
   * insertion order (the order `Object.entries` reports them) and its values.
   */
  datatype Totals = Totals(keys: seq<string>, values: map<string, int>)

  const NoTotals := Totals([], map[])

  ghost predicate Distinct(s: seq<string>)
  {
    forall i, j :: 0 <= i < j < |s| ==> s[i] != s[j]
  }

  /** The keys are listed once each, and exactly the keys that have a value are listed. */
  ghost predicate WellFormed(r: Totals)
  {
    Distinct(r.keys) && forall c :: c in r.values <==> c in r.keys
  }

  /** `m[c] || 0`: the value under `c`, or 0 when `c` is absent. */
  function Lookup(m: map<string, int>, c: string): int
  {
    if c in m then m[c] else 0
  }

  /** `acc[c] = v`: a new key goes to the end of the key order, an existing one keeps its place. */
  function Put(r: Totals, c: string, v: int): Totals
  {
    Totals(if c in r.values then r.keys else r.keys + [c], r.values[c := v])
  }

  /**
   * The reducer of line 27 (`acc[t.category] = (acc[t.category] || 0) + t.amount`),
   * one step: the amount is added under its category, which becomes a key if
   * it was not one, and every other category keeps its value.
   */
  function AddTo(acc: Totals, t: Transaction): (r: Totals)
    ensures r.values.Keys == acc.values.Keys + {t.category}
    ensures Lookup(r.values, t.category) == Lookup(acc.values, t.category) + t.amount
    ensures forall c :: c != t.category ==> Lookup(r.values, c) == Lookup(acc.values, c)
  {
    Put(acc, t.category, Lookup(acc.values, t.category) + t.amount)
  }

  /** The reducer folded left to right from `acc`. */
  function Tally(acc: Totals, es: seq<Transaction>): Totals
    decreases es
  {
    if es == [] then acc else Tally(AddTo(acc, es[0]), es[1..])
  }

  /**
   * `categoryDataMap`: the EXPENSE transactions folded into per-category
   * totals. A category is a key exactly when some EXPENSE transaction carries
   * it, each key is listed once, and its value is the sum of those
   * transactions' amounts.
   */
  function CategoryDataMap(ts: seq<Transaction>): (r: Totals)
    ensures WellFormed(r)
    ensures forall c :: c in r.values <==> HasExpenseIn(ts, c)
    ensures forall c :: c in r.values ==> r.values[c] == Spent(ts, c)
  {
    ExpenseTally(ts);
    Tally(NoTotals, OfType(ts, EXPENSE))
  }

  /** One slice of the pie chart (`{ name, value }`). */
  datatype PieSlice = PieSlice(name: string, value: int)

  /**
   * `Object.entries(…).map(([name, value]) => ({ name, value }))` over the keys
   * `keys`: one slice per key, in key order, carrying that key's value.
   */
  function Slices(keys: seq<string>, m: map<string, int>): (r: seq<PieSlice>)
    ensures |r| == |keys|
    ensures forall i :: 0 <= i < |keys| ==> r[i] == PieSlice(keys[i], Lookup(m, keys[i]))
  {
    if keys == [] then [] else [PieSlice(keys[0], Lookup(m, keys[0]))] + Slices(keys[1..], m)
  }

  /**
   * `pieData`: one slice per key of `categoryDataMap`, in insertion order,
   * each carrying what was spent in its category.
   */
  function PieData(ts: seq<Transaction>): (ps: seq<PieSlice>)
    ensures |ps| == |CategoryDataMap(ts).keys|
    ensures forall i :: 0 <= i < |ps| ==> ps[i].name == CategoryDataMap(ts).keys[i]
    ensures forall i :: 0 <= i < |ps| ==> ps[i].value == Spent(ts, ps[i].name)
  {
    var r := CategoryDataMap(ts);
    Slices(r.keys, r.values)
  }

  function SliceTotal(ps: seq<PieSlice>): int
  {
    if ps == [] then 0 else ps[0].value + SliceTotal(ps[1..])
  }

  /** The sum of the values of an object, over its keys. */
  function Total(r: Totals): int
  {
    SliceTotal(Slices(r.keys, r.values))
  }

  /** The categories met in a list. */
  function CategoriesOf(es: seq<Transaction>): set<string>
  {
    if es == [] then {} else {es[0].category} + CategoriesOf(es[1..])
  }

  /** Does some EXPENSE transaction carry category `c`? */
  ghost predicate HasExpenseIn(ts: seq<Transaction>, c: string)
  {
    exists t :: t in ts && t.txType == EXPENSE && t.category == c
  }

  lemma {:induction false} SliceTotalAppend(a: seq<PieSlice>, b: seq<PieSlice>)
    ensures SliceTotal(a + b) == SliceTotal(a) + SliceTotal(b)
  {
    if a == [] {
      assert a + b == b;
    } else {
      assert (a + b)[1..] == a[1..] + b;
      SliceTotalAppend(a[1..], b);
    }
  }

  lemma {:induction false} SlicesAppendKey(keys: seq<string>, c: string, m: map<string, int>)
    ensures Slices(keys + [c], m) == Slices(keys, m) + [PieSlice(c, Lookup(m, c))]
  {
    if keys == [] {
      assert keys + [c] == [c];
    } else {
      assert (keys + [c])[1..] == keys[1..] + [c];
      SlicesAppendKey(keys[1..], c, m);
    }
  }

  /** Changing the value under a key that is not listed changes no slice. */
  lemma {:induction false} SlicesIgnoreOtherKey(keys: seq<string>, m: map<string, int>, c: string, v: int)
    requires c !in keys
    ensures Slices(keys, m[c := v]) == Slices(keys, m)
  {
    if keys != [] {
      assert keys[0] in keys;
      SlicesIgnoreOtherKey(keys[1..], m, c, v);
    }
  }

  lemma DistinctTail(keys: seq<string>)
    requires Distinct(keys) && keys != []
    ensures Distinct(keys[1..]) && keys[0] !in keys[1..]
  {
  }

  /** Changing the value under a key listed once changes the slice total by the difference. */
  lemma {:induction false} SlicesUpdateKey(keys: seq<string>, m: map<string, int>, c: string, v: int)
    requires Distinct(keys) && c in keys
    ensures SliceTotal(Slices(keys, m[c := v])) == SliceTotal(Slices(keys, m)) - Lookup(m, c) + v
  {
    DistinctTail(keys);
    if keys[0] == c {
      SlicesIgnoreOtherKey(keys[1..], m, c, v);
    } else {
      SlicesUpdateKey(keys[1..], m, c, v);
    }
  }

  lemma DistinctSnoc(keys: seq<string>, c: string)
    requires Distinct(keys) && c !in keys
    ensures Distinct(keys + [c])
  {
  }

  /** One step of the reducer keeps the object well formed and adds the amount to its total. */
  lemma AddToStep(r: Totals, t: Transaction)
    requires WellFormed(r)
    ensures WellFormed(AddTo(r, t))
    ensures Total(AddTo(r, t)) == Total(r) + t.amount
  {
    var v := Lookup(r.values, t.category) + t.amount;
    assert AddTo(r, t) == Put(r, t.category, v);
    if t.category in r.values {
      PutExisting(r, t.category, v);
    } else {
      PutNew(r, t.category, v);
    }
  }

  /** Overwriting a listed key keeps the key order and changes the total by the difference. */
  lemma PutExisting(r: Totals, c: string, v: int)
    requires WellFormed(r) && c in r.values
    ensures WellFormed(Put(r, c, v))
    ensures Total(Put(r, c, v)) == Total(r) - Lookup(r.values, c) + v
  {
    SlicesUpdateKey(r.keys, r.values, c, v);
  }

  /** A new key goes last and adds its value to the total. */
  lemma PutNew(r: Totals, c: string, v: int)
    requires WellFormed(r) && c !in r.values
    ensures WellFormed(Put(r, c, v))
    ensures Total(Put(r, c, v)) == Total(r) + v
  {
    assert c !in r.keys;
    SlicesAppendKey(r.keys, c, r.values[c := v]);
    SlicesIgnoreOtherKey(r.keys, r.values, c, v);
    SliceTotalAppend(Slices(r.keys, r.values), [PieSlice(c, v)]);
    DistinctSnoc(r.keys, c);
  }

  /** The fold keeps the object well formed and adds a key for each category it meets, and no other. */
  lemma {:induction false} TallyKeys(acc: Totals, es: seq<Transaction>)
    requires WellFormed(acc)
    ensures WellFormed(Tally(acc, es))
    ensures Tally(acc, es).values.Keys == acc.values.Keys + CategoriesOf(es)
    decreases es
  {
    if es != [] {
      var next := AddTo(acc, es[0]);
      AddToStep(acc, es[0]);
      TallyKeys(next, es[1..]);
    }
  }

  /** The fold adds to each category exactly the amounts of that category it meets. */
  lemma {:induction false} TallyValues(acc: Totals, es: seq<Transaction>, c: string)
    requires forall t :: t in es ==> t.txType == EXPENSE
    ensures Lookup(Tally(acc, es).values, c) == Lookup(acc.values, c) + Spent(es, c)
    decreases es
  {
    if es != [] {
      assert es[0] in es;
      assert forall t :: t in es[1..] ==> t in es;
      TallyValues(AddTo(acc, es[0]), es[1..], c);
    }
  }

  /** The fold adds the sum of what it meets to the object's total. */
  lemma {:induction false} TallyTotal(acc: Totals, es: seq<Transaction>)
    requires WellFormed(acc)
    ensures Total(Tally(acc, es)) == Total(acc) + Sum(es)
    decreases es
  {
    if es != [] {
      AddToStep(acc, es[0]);
      TallyTotal(AddTo(acc, es[0]), es[1..]);
    }
  }

  lemma {:induction false} CategoriesOfMembers(es: seq<Transaction>, c: string)
    ensures c in CategoriesOf(es) <==> exists t :: t in es && t.category == c
  {
    if es != [] {
      CategoriesOfMembers(es[1..], c);
      assert es[0] in es;
      assert forall t :: t in es[1..] ==> t in es;
      if c != es[0].category && exists t :: t in es && t.category == c {
        var t :| t in es && t.category == c;
        assert t in es[1..];
      }
    }
  }

  lemma {:induction false} SpentAppend(a: seq<Transaction>, b: seq<Transaction>, c: string)
    ensures Spent(a + b, c) == Spent(a, c) + Spent(b, c)
  {
    if a == [] {
      assert a + b == b;
    } else {
      assert (a + b)[1..] == a[1..] + b;
      SpentAppend(a[1..], b, c);
    }
  }

  /** Only EXPENSE transactions count toward a category. */
  lemma {:induction false} SpentOfExpenses(ts: seq<Transaction>, c: string)
    ensures Spent(OfType(ts, EXPENSE), c) == Spent(ts, c)
  {
    if ts != [] {
      var head := if ts[0].txType == EXPENSE then [ts[0]] else [];
      assert OfType(ts, EXPENSE) == head + OfType(ts[1..], EXPENSE);
      SpentAppend(head, OfType(ts[1..], EXPENSE), c);
      SpentOfExpenses(ts[1..], c);
    }
  }

  /** The fold behind `CategoryDataMap`, from the empty object over the EXPENSE transactions. */
  lemma ExpenseTally(ts: seq<Transaction>)
    ensures WellFormed(Tally(NoTotals, OfType(ts, EXPENSE)))
    ensures forall c :: c in Tally(NoTotals, OfType(ts, EXPENSE)).values <==> HasExpenseIn(ts, c)
    ensures forall c :: c in Tally(NoTotals, OfType(ts, EXPENSE)).values ==>
      Tally(NoTotals, OfType(ts, EXPENSE)).values[c] == Spent(ts, c)
  {
    var es := OfType(ts, EXPENSE);
    var r := Tally(NoTotals, es);
    TallyKeys(NoTotals, es);
    forall c ensures c in r.values <==> HasExpenseIn(ts, c) {
      CategoriesOfMembers(es, c);
      if HasExpenseIn(ts, c) {
        var t :| t in ts && t.txType == EXPENSE && t.category == c;
        assert t in es;
      }
    }
    forall c | c in r.values ensures r.values[c] == Spent(ts, c) {
      TallyValues(NoTotals, es, c);
      SpentOfExpenses(ts, c);
    }
  }

  /** The pie slices add up to the total expenses. */
  lemma PieDataTotal(ts: seq<Transaction>)
    ensures SliceTotal(PieData(ts)) == TotalExpenses(ts)
  {
    TallyTotal(NoTotals, OfType(ts, EXPENSE));
  }

  /** The chart box (lines 54-77): the pie, or the "Add some expenses" placeholder. */
  datatype Chart = Pie(slices: seq<PieSlice>) | AddSomeExpenses

  /** `pieData.length > 0 ? <PieChart …> : placeholder`. */
  function SpendingChart(ts: seq<Transaction>): (c: Chart)
    ensures c.AddSomeExpenses? <==> forall t :: t in ts ==> t.txType == INCOME
    ensures c.Pie? ==> SliceTotal(c.slices) == TotalExpenses(ts)
  {
    PieDataTotal(ts);
    if |PieData(ts)| > 0 then Pie(PieData(ts)) else AddSomeExpenses
  }

  // ---------------------------------------------------------------------
  // Recent activity (line 84-85)

  /** The activity box: up to six entries, or "No transactions yet." */
  datatype Activity = Recent(items: seq<Transaction>) | NoTransactionsYet

  function Min(a: int, b: int): int { if a <= b then a else b }

  /** `transactions.length > 0 ? transactions.slice(0, 6) : placeholder`. */
  function RecentActivity(ts: seq<Transaction>): (r: Activity)
    ensures r.NoTransactionsYet? <==> ts == []
    ensures r.Recent? ==> |r.items| == Min(6, |ts|)
    ensures r.Recent? ==> forall i :: 0 <= i < |r.items| ==> r.items[i] == ts[i]
  {
    if |ts| > 0 then Recent(ts[..Min(6, |ts|)]) else NoTransactionsYet
  }

  /** A newly prepended transaction heads the recent list, followed by the first five older ones. */
  lemma RecentOfPrepend(t: Transaction, ts: seq<Transaction>)
    ensures RecentActivity([t] + ts) == Recent([t] + ts[..Min(5, |ts|)])
  {
  }

  // ---------------------------------------------------------------------
  // Whole-dashboard facts

  /** An empty list: zero totals, an empty breakdown, and both placeholders. */
  lemma EmptyDashboard()
    ensures TotalIncome([]) == 0 && TotalExpenses([]) == 0 && Balance([]) == 0
    ensures CategoryDataMap([]) == NoTotals && PieData([]) == []
    ensures SpendingChart([]) == AddSomeExpenses
    ensures RecentActivity([]) == NoTransactionsYet
  {
  }

  /** A list without expenses gives an empty breakdown and the placeholder. */
  lemma OnlyIncomeNoBreakdown(ts: seq<Transaction>)
    requires forall t :: t in ts ==> t.txType == INCOME
    ensures CategoryDataMap(ts).values == map[] && PieData(ts) == []
    ensures TotalExpenses(ts) == 0 && Balance(ts) == TotalIncome(ts)
  {
  }

  /** One salary of 1000 and one meal of 200. */
  lemma ExampleScenario()
    ensures var ts := [Transaction("a", 1000, "Salary", "", "2024-01-01", INCOME),
                       Transaction("b", 200, "Food & Drink", "", "2024-01-02", EXPENSE)];
      TotalIncome(ts) == 1000 && TotalExpenses(ts) == 200 && Balance(ts) == 800
      && PieData(ts) == [PieSlice("Food & Drink", 200)]
  {
  }
}
