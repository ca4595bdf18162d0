/**
 * The top-level component (App.tsx): the transaction list, the active tab,
 * and the browser store the list is saved to after every change.
 *
 * The store is the one `localStorage` entry "zenfinance_transactions"; what it holds
 * is abstracted to the three cases the loader tells apart.
 */
module App {
  import opened Wrappers
  import opened Types
  import Form

  const DashboardTab := "dashboard"

  /**
   * The text stored under that key: the empty string, the JSON text of a
   * transaction list (as `JSON.stringify` writes it), or any other text.
   */
  datatype Stored = Blank | Serialized(list: seq<Transaction>) | Unparsable

  /** `JSON.parse` threw: the component fails to mount. */
  datatype LoadError = ParseError

  /**
   * The initial state of `transactions`: an absent or empty entry gives the
   * empty list, a saved list is read back as it was, and any other text makes
   * `JSON.parse` throw, which the source does not catch.
   */
  function Load(stored: Option<Stored>): (r: Result<seq<Transaction>, LoadError>)
    ensures r.Err? <==> stored == Some(Unparsable)
    ensures (stored.None? || stored == Some(Blank)) ==> r == Ok([])
    ensures forall ts :: stored == Some(Serialized(ts)) ==> r == Ok(ts)
  {
    match stored
    case None => Ok([])
    case Some(Blank) => Ok([])
    case Some(Serialized(ts)) => Ok(ts)
    case Some(Unparsable) => Err(ParseError)
  }

  /** The persist effect's write: the whole list, replacing what was there. */
  function Save(ts: seq<Transaction>): (stored: Option<Stored>)
    ensures Load(stored) == Ok(ts)
  {
    Some(Serialized(ts))
  }

  /** `[t, ...prev]`: the new entry first, then the old ones in their order. */
  function Prepend(t: Transaction, ts: seq<Transaction>): (r: seq<Transaction>)
    ensures |r| == |ts| + 1 && r[0] == t && r[1..] == ts
  {
    [t] + ts
  }

  /** `prev.filter(t => t.id !== id)`. */
  function RemoveId(ts: seq<Transaction>, id: string): (r: seq<Transaction>)
    ensures |r| <= |ts|
  {
    if ts == [] then []
    else (if ts[0].id != id then [ts[0]] else []) + RemoveId(ts[1..], id)
  }

  lemma RemoveIdCons(t: Transaction, ts: seq<Transaction>, id: string)
    ensures RemoveId([t] + ts, id) == (if t.id != id then [t] else []) + RemoveId(ts, id)
  {
    assert ([t] + ts)[1..] == ts;
  }

  /** Exactly the entries whose id differs are kept. */
  lemma {:induction false} RemoveIdMembers(ts: seq<Transaction>, id: string)
    ensures forall t :: t in RemoveId(ts, id) <==> t in ts && t.id != id
  {
    if ts != [] {
      RemoveIdMembers(ts[1..], id);
      assert ts == [ts[0]] + ts[1..];
    }
  }

  /** Deleting an id that no entry carries leaves the list as it was. */
  lemma {:induction false} RemoveIdAbsent(ts: seq<Transaction>, id: string)
    requires forall t :: t in ts ==> t.id != id
    ensures RemoveId(ts, id) == ts
  {
    if ts != [] {
      assert ts[0] in ts;
      assert forall t :: t in ts[1..] ==> t in ts;
      RemoveIdAbsent(ts[1..], id);
      assert ts == [ts[0]] + ts[1..];
    }
  }

  /** Removal works piecewise, so the kept entries stay in their original order. */
  lemma {:induction false} RemoveIdAppend(a: seq<Transaction>, b: seq<Transaction>, id: string)
    ensures RemoveId(a + b, id) == RemoveId(a, id) + RemoveId(b, id)
  {
    if a == [] {
      assert a + b == b;
    } else {
      var t, rest := a[0], a[1..];
      assert a == [t] + rest;
      assert a + b == [t] + (rest + b);
      RemoveIdCons(t, rest + b, id);
      RemoveIdCons(t, rest, id);
      RemoveIdAppend(rest, b, id);
    }
  }

  /** Every entry with the id is dropped and every other entry keeps its multiplicity. */
  lemma {:induction false} RemoveIdCounts(ts: seq<Transaction>, id: string, x: Transaction)
    ensures multiset(RemoveId(ts, id))[x] == if x.id == id then 0 else multiset(ts)[x]
  {
    if ts != [] {
      RemoveIdCounts(ts[1..], id, x);
      assert ts == [ts[0]] + ts[1..];
    }
  }

  /** Deleting twice is deleting once. */
  lemma RemoveIdIdempotent(ts: seq<Transaction>, id: string)
    ensures RemoveId(RemoveId(ts, id), id) == RemoveId(ts, id)
  {
    RemoveIdMembers(ts, id);
    RemoveIdAbsent(RemoveId(ts, id), id);
  }

  /** Deleting an entry just added, whose id was new, gives back the old list. */
  lemma DeleteUndoesAdd(t: Transaction, ts: seq<Transaction>)
    requires forall u :: u in ts ==> u.id != t.id
    ensures RemoveId(Prepend(t, ts), t.id) == ts
  {
    RemoveIdCons(t, ts, t.id);
    RemoveIdAbsent(ts, t.id);
  }

  /** The component's state together with the store it writes to. */
  class AppState {
    var activeTab: string
    var transactions: seq<Transaction>
    var storage: Option<Stored>

    /** The store holds the current list, so a reload reads back the same list. */
    predicate Persisted()
      reads this
      ensures Persisted() ==> Load(storage) == Ok(transactions)
    {
      storage == Save(transactions)
    }

    constructor (ts: seq<Transaction>, stored: Option<Stored>)
      ensures activeTab == DashboardTab && transactions == ts && storage == stored
    {
      activeTab, transactions, storage := DashboardTab, ts, stored;
    }

    /**
     * Mounting: read the store (lines 11-14), then run the persist effect once
     * for the initial list (lines 16-18). A store that `JSON.parse` rejects
     * makes the mount fail, shown as `null`.
     */
    static method Mount(stored: Option<Stored>) returns (app: AppState?)
      ensures app == null <==> Load(stored).Err?
      ensures app != null ==> fresh(app) && app.activeTab == DashboardTab
      ensures app != null ==> app.transactions == Load(stored).value && app.Persisted()
      ensures app != null && stored.Some? && stored.value.Serialized? ==> app.transactions == stored.value.list
    {
      match Load(stored)
      case Err(_) =>
        app := null;
      case Ok(ts) =>
        app := new AppState(ts, stored);
        app.Persist();
    }

    /** The persist effect: write the whole current list. */
    method Persist()
      modifies this`storage
      ensures Persisted() && Load(storage) == Ok(transactions)
    {
      storage := Save(transactions);
    }

    /** `addTransaction`: prepend, switch to the dashboard, and persist. */
    method AddTransaction(t: Transaction)
      modifies this
      ensures transactions == Prepend(t, old(transactions))
      ensures activeTab == DashboardTab
      ensures Persisted() && Load(storage) == Ok(transactions)
    {
      transactions := Prepend(t, transactions);
      activeTab := DashboardTab;
      Persist();
    }

    /** `deleteTransaction`: drop every entry with the id, persist, and leave the tab alone. */
    method DeleteTransaction(id: string)
      modifies this`transactions, this`storage
      ensures transactions == RemoveId(old(transactions), id)
      ensures activeTab == old(activeTab)
      ensures Persisted() && Load(storage) == Ok(transactions)
    {
      transactions := RemoveId(transactions, id);
      Persist();
    }

    /** `setActiveTab`, passed to the navigation: the list and the store are untouched. */
    method SetActiveTab(tab: string)
      modifies this`activeTab
      ensures activeTab == tab
      ensures transactions == old(transactions) && storage == old(storage)
    {
      activeTab := tab;
    }

    /**
     * The form's `onAdd` is `addTransaction` (line 38): a submit with both
     * texts present emits the transaction built from the form's fields, adds
     * it, and clears the two texts; any other submit changes nothing.
     */
    method SubmitForm(form: Form.TransactionForm, id: string, parseAmount: string -> int)
      returns (emitted: Option<Transaction>)
      requires form.Valid()
      modifies this, form
      ensures form.Valid()
      ensures emitted.Some? <==> old(form.CanSubmit())
      ensures emitted.Some? ==> emitted.value == Transaction(
        id, parseAmount(old(form.amount)), old(form.category), old(form.description), old(form.date), old(form.txType))
      ensures emitted.Some? ==> transactions == Prepend(emitted.value, old(transactions)) && activeTab == DashboardTab
      ensures emitted.Some? ==> Persisted()
      ensures emitted.Some? ==> form.amount == "" && form.description == ""
      ensures emitted.None? ==> transactions == old(transactions) && activeTab == old(activeTab) && storage == old(storage)
      ensures emitted.None? ==> form.amount == old(form.amount) && form.description == old(form.description)
      ensures form.category == old(form.category) && form.txType == old(form.txType) && form.date == old(form.date)
    {
      emitted := form.HandleSubmit(id, parseAmount);
      if emitted.Some? {
        AddTransaction(emitted.value);
      }
    }
  }
}
