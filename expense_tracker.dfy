/**
 * The transaction tracker's list state (components/ExpenseTracker.tsx): two record
 * lists updated optimistically, the add forms, the active tab, and the figures
 * derived from them. The record store is a parameter: an insert's confirmed row,
 * or whether a delete succeeded.
 */
module ExpenseTracker {
  import opened Types
  import opened Ledger

  datatype Tab = Expenses | Savings

  /** The contents of an add form; `amount` is still the text the user typed. */
  datatype Draft = Draft(description: string, amount: string, category: string, date: string)

  /** The form an expense add resets to. */
  const BlankExpense: Draft := Draft("", "", "Food", "")

  /** The form a saving add resets to. */
  const BlankSaving: Draft := Draft("", "", "Salary", "")

  /** The guard shared by both adds: description, amount and date are all non-empty. */
  predicate Filled(d: Draft)
  {
    d.description != "" && d.amount != "" && d.date != ""
  }

  class Tracker {
    var activeTab: Tab
    var expenses: seq<Entry>
    var savings: seq<Entry>
    var newExpense: Draft
    var newSaving: Draft

    constructor ()
      ensures activeTab == Expenses && expenses == [] && savings == []
      ensures newExpense == BlankExpense && newSaving == BlankSaving
    {
      activeTab := Expenses;
      expenses := [];
      savings := [];
      newExpense := BlankExpense;
      newSaving := BlankSaving;
    }

    /** The list the chart shows. */
    function ActiveList(): seq<Entry>
      reads this
    {
      if activeTab == Expenses then expenses else savings
    }

    function TotalExpenses(): int
      reads this
    {
      Total(expenses)
    }

    function TotalSavings(): int
      reads this
    {
      Total(savings)
    }

    /** `balance`: the savings total minus the expenses total. */
    function CurrentBalance(): int
      reads this
    {
      Balance(savings, expenses)
    }

    method SelectTab(tab: Tab)
      modifies this`activeTab
      ensures activeTab == tab
    {
      activeTab := tab;
    }

    method EditExpenseForm(d: Draft)
      modifies this`newExpense
      ensures newExpense == d
    {
      newExpense := d;
    }

    method EditSavingForm(d: Draft)
      modifies this`newSaving
      ensures newSaving == d
    {
      newSaving := d;
    }

    /**
     * `handleAddExpense` up to the store call: with a filled form and a signed-in
     * user, the record is put at the head of the list under the temporary id and
     * the form is reset. `amount` is the number the form's text parses to.
     */
    method AddExpense(signedIn: bool, amount: int, tempId: string) returns (added: bool)
      modifies this`expenses, this`newExpense
      ensures added == (Filled(old(newExpense)) && signedIn)
      ensures added ==> expenses == [Entry(tempId, old(newExpense).description, amount,
                                           old(newExpense).category, old(newExpense).date)] + old(expenses)
      ensures added ==> newExpense == BlankExpense && TotalExpenses() == old(TotalExpenses()) + amount
      ensures added ==> CurrentBalance() == old(CurrentBalance()) - amount
      ensures !added ==> expenses == old(expenses) && newExpense == old(newExpense)
    {
      if !Filled(newExpense) || !signedIn {
        return false;
      }
      var optimistic := Entry(tempId, newExpense.description, amount, newExpense.category, newExpense.date);
      BalanceAfterAdd(optimistic, savings, expenses);
      expenses := [optimistic] + expenses;
      newExpense := BlankExpense;
      added := true;
    }

    /** The store confirmed the insert: entries with the temporary id become the stored row. */
    method ConfirmExpense(tempId: string, stored: Entry)
      modifies this`expenses
      ensures expenses == Reconcile(old(expenses), tempId, stored)
    {
      expenses := Reconcile(expenses, tempId, stored);
    }

    /**
     * `handleDeleteExpense`: remove every entry with the id at once, and restore
     * the snapshot taken before if the store reports a failure.
     */
    method DeleteExpense(id: string, deleted: bool)
      modifies this`expenses
      ensures deleted ==> expenses == Without(old(expenses), id)
      ensures !deleted ==> expenses == old(expenses)
    {
      var previous := expenses;
      expenses := Without(expenses, id);
      if !deleted {
        expenses := previous;
      }
    }

    /** `handleAddSaving`: the same form guard without the user check; the record is prepended. */
    method AddSaving(amount: int, id: string) returns (added: bool)
      modifies this`savings, this`newSaving
      ensures added == Filled(old(newSaving))
      ensures added ==> savings == [Entry(id, old(newSaving).description, amount,
                                          old(newSaving).category, old(newSaving).date)] + old(savings)
      ensures added ==> newSaving == BlankSaving && TotalSavings() == old(TotalSavings()) + amount
      ensures added ==> CurrentBalance() == old(CurrentBalance()) + amount
      ensures !added ==> savings == old(savings) && newSaving == old(newSaving)
    {
      if !Filled(newSaving) {
        return false;
      }
      var saving := Entry(id, newSaving.description, amount, newSaving.category, newSaving.date);
      BalanceAfterAdd(saving, savings, expenses);
      savings := [saving] + savings;
      newSaving := BlankSaving;
      added := true;
    }

    /** `handleDeleteSaving`: savings are kept locally, so the filter is final. */
    method DeleteSaving(id: string)
      modifies this`savings
      ensures savings == Without(old(savings), id)
    {
      savings := Without(savings, id);
    }

    /**
     * `chartData`: fill a dictionary from category to running sum in one pass
     * over the active list, then list its keys in insertion order with their sums.
     */
    method ChartData() returns (slices: seq<Slice>)
      ensures slices == Aggregate(ActiveList())
      ensures SliceTotal(slices) == Total(ActiveList())
    {
      var list := ActiveList();
      var data: map<string, int> := map[];
      var keys: seq<string> := [];
      var i := 0;
      while i < |list|
        invariant 0 <= i <= |list|
        invariant keys == Categories(list[..i])
        invariant forall c :: c in data <==> c in keys
        invariant forall c :: c in data ==> data[c] == CategorySum(list[..i], c)
      {
        var e := list[i];
        assert list[..i + 1][..i] == list[..i];
        forall c ensures CategorySum(list[..i + 1], c) == CategorySum(list[..i], c) + (if e.category == c then e.amount else 0) {
        }
        if e.category !in data {
          CategorySumUnlisted(list[..i], e.category);
          keys := keys + [e.category];
          data := data[e.category := e.amount];
        } else {
          data := data[e.category := data[e.category] + e.amount];
        }
        i := i + 1;
      }
      assert list[..i] == list;
      slices := seq(|keys|, k requires 0 <= k < |keys| => Slice(keys[k], data[keys[k]]));
      forall k | 0 <= k < |keys|
        ensures |Slices(keys, list)| == |keys| && slices[k] == Slices(keys, list)[k]
      {
        SlicesAt(keys, list, k);
      }
      if keys == [] {
        assert Slices(keys, list) == [];
      }
      AggregateTotal(list);
    }
  }
}
