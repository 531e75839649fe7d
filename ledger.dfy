/**
 * The pure computations over record lists: the `reduce` totals and the balance
 * (components/ExpenseTracker.tsx and the session summary in context/ChatContext.tsx),
 * the id filter used by delete, the id replacement used when the store confirms an
 * insert, and the per-category aggregation behind the tracker's pie chart.
 */
module Ledger {
  import opened Types

  // ---------------------------------------------------------------------------
  // Totals and balance
  // ---------------------------------------------------------------------------

  /** `xs.reduce((acc, curr) => acc + curr.amount, 0)`: a left fold. */
  function Total(xs: seq<Entry>): int
  {
    if xs == [] then 0 else Total(xs[..|xs| - 1]) + xs[|xs| - 1].amount
  }

  /** The total of a concatenation is the sum of the totals. */
  lemma {:induction false} TotalConcat(a: seq<Entry>, b: seq<Entry>)
    ensures Total(a + b) == Total(a) + Total(b)
  {
    if b == [] {
      assert a + b == a;
    } else {
      var b' := b[..|b| - 1];
      assert (a + b)[..|a + b| - 1] == a + b';
      TotalConcat(a, b');
    }
  }

  /** Prepending a record (an optimistic add) raises the total by exactly its amount. */
  lemma TotalPrepend(e: Entry, xs: seq<Entry>)
    ensures Total([e] + xs) == e.amount + Total(xs)
  {
    TotalConcat([e], xs);
  }

  /** Net balance: income (savings) minus expenses. */
  function Balance(savings: seq<Entry>, expenses: seq<Entry>): int
  {
    Total(savings) - Total(expenses)
  }

  /** Adding a saving raises the balance by its amount; adding an expense lowers it. */
  lemma BalanceAfterAdd(e: Entry, savings: seq<Entry>, expenses: seq<Entry>)
    ensures Balance([e] + savings, expenses) == Balance(savings, expenses) + e.amount
    ensures Balance(savings, [e] + expenses) == Balance(savings, expenses) - e.amount
  {
    TotalPrepend(e, savings);
    TotalPrepend(e, expenses);
  }

  // ---------------------------------------------------------------------------
  // Delete: `xs.filter(e => e.id !== id)`
  // ---------------------------------------------------------------------------

  function Without(xs: seq<Entry>, id: string): seq<Entry>
  {
    if xs == [] then []
    else (if xs[0].id == id then [] else [xs[0]]) + Without(xs[1..], id)
  }

  /** An entry survives the filter exactly when it was there and has another id. */
  lemma {:induction false} WithoutMembers(xs: seq<Entry>, id: string, e: Entry)
    ensures e in Without(xs, id) <==> e in xs && e.id != id
  {
    if xs != [] {
      WithoutMembers(xs[1..], id, e);
      assert xs == [xs[0]] + xs[1..];
    }
  }

  /** The filter works piecewise, so the survivors keep their original order. */
  lemma {:induction false} WithoutConcat(a: seq<Entry>, b: seq<Entry>, id: string)
    ensures Without(a + b, id) == Without(a, id) + Without(b, id)
  {
    if a == [] {
      assert a + b == b;
    } else {
      assert (a + b)[0] == a[0];
      assert (a + b)[1..] == a[1..] + b;
      WithoutConcat(a[1..], b, id);
    }
  }

  /** Deleting an id that no entry carries changes nothing. */
  lemma {:induction false} WithoutAbsent(xs: seq<Entry>, id: string)
    requires forall i :: 0 <= i < |xs| ==> xs[i].id != id
    ensures Without(xs, id) == xs
  {
    if xs != [] {
      WithoutAbsent(xs[1..], id);
    }
  }

  // ---------------------------------------------------------------------------
  // Confirm: `prev.map(ex => ex.id === tempId ? data[0] : ex)`
  // ---------------------------------------------------------------------------

  function Reconcile(xs: seq<Entry>, tempId: string, stored: Entry): seq<Entry>
  {
    if xs == [] then []
    else [if xs[0].id == tempId then stored else xs[0]] + Reconcile(xs[1..], tempId, stored)
  }

  /** Only the entries carrying the temporary id are replaced; length and position are kept. */
  lemma {:induction false} ReconcileAt(xs: seq<Entry>, tempId: string, stored: Entry, i: int)
    requires 0 <= i < |xs|
    ensures |Reconcile(xs, tempId, stored)| == |xs|
    ensures Reconcile(xs, tempId, stored)[i] == if xs[i].id == tempId then stored else xs[i]
  {
    if i > 0 {
      ReconcileAt(xs[1..], tempId, stored, i - 1);
    } else if |xs| > 1 {
      ReconcileAt(xs[1..], tempId, stored, 0);
    }
  }

  /** Confirming an id that no entry carries changes nothing. */
  lemma {:induction false} ReconcileAbsent(xs: seq<Entry>, tempId: string, stored: Entry)
    requires forall i :: 0 <= i < |xs| ==> xs[i].id != tempId
    ensures Reconcile(xs, tempId, stored) == xs
  {
    if xs != [] {
      ReconcileAbsent(xs[1..], tempId, stored);
    }
  }

  /**
   * An optimistic add under a fresh temporary id followed by the store's
   * confirmation leaves the stored record at the head of the previous list.
   */
  lemma AddThenConfirm(optimistic: Entry, xs: seq<Entry>, stored: Entry)
    requires forall i :: 0 <= i < |xs| ==> xs[i].id != optimistic.id
    ensures Reconcile([optimistic] + xs, optimistic.id, stored) == [stored] + xs
  {
    assert ([optimistic] + xs)[1..] == xs;
    ReconcileAbsent(xs, optimistic.id, stored);
  }

  // ---------------------------------------------------------------------------
  // Chart data: one slice per category, in first-appearance order
  // ---------------------------------------------------------------------------

  datatype Slice = Slice(name: string, value: int)

  /** The categories in the order the `forEach` first inserts them as keys. */
  function Categories(xs: seq<Entry>): seq<string>
  {
    if xs == [] then []
    else
      var ks := Categories(xs[..|xs| - 1]);
      var c := xs[|xs| - 1].category;
      if c in ks then ks else ks + [c]
  }

  /** The value the `forEach` accumulates under key `c`. */
  function CategorySum(xs: seq<Entry>, c: string): int
  {
    if xs == [] then 0
    else CategorySum(xs[..|xs| - 1], c) + (if xs[|xs| - 1].category == c then xs[|xs| - 1].amount else 0)
  }

  function Slices(ks: seq<string>, xs: seq<Entry>): seq<Slice>
  {
    if ks == [] then [] else [Slice(ks[0], CategorySum(xs, ks[0]))] + Slices(ks[1..], xs)
  }

  /** `chartData`: the slices of a list. */
  function Aggregate(xs: seq<Entry>): seq<Slice>
  {
    Slices(Categories(xs), xs)
  }

  function SliceTotal(ss: seq<Slice>): int
  {
    if ss == [] then 0 else ss[0].value + SliceTotal(ss[1..])
  }

  predicate Distinct(ks: seq<string>)
  {
    forall i, j :: 0 <= i < j < |ks| ==> ks[i] != ks[j]
  }

  /** Each category is listed once, and exactly the categories some entry carries are listed. */
  lemma {:induction false} CategoriesSpec(xs: seq<Entry>)
    ensures Distinct(Categories(xs))
    ensures forall c :: c in Categories(xs) <==> exists i :: 0 <= i < |xs| && xs[i].category == c
  {
    if xs != [] {
      var p, x := xs[..|xs| - 1], xs[|xs| - 1];
      assert xs == p + [x];
      CategoriesSpec(p);
      CategoriesSnoc(p, x);
      forall c | c in Categories(xs)
        ensures exists i :: 0 <= i < |xs| && xs[i].category == c
      {
        if c in Categories(p) {
          var i :| 0 <= i < |p| && p[i].category == c;
          assert xs[i] == p[i];
        } else {
          assert xs[|xs| - 1].category == c;
        }
      }
      forall c, i | 0 <= i < |xs| && xs[i].category == c
        ensures c in Categories(xs)
      {
        if i < |p| {
          assert p[i] == xs[i];
        }
      }
    }
  }

  /**
   * The reference order: scan from the front and keep each category the first
   * time it is seen.
   */
  function FirstAppearances(xs: seq<Entry>, seen: seq<string>): seq<string>
  {
    if xs == [] then []
    else if xs[0].category in seen then FirstAppearances(xs[1..], seen)
    else [xs[0].category] + FirstAppearances(xs[1..], seen + [xs[0].category])
  }

  /** One more entry adds its category as the last key, unless it is already a key. */
  lemma CategoriesSnoc(s: seq<Entry>, x: Entry)
    ensures Categories(s + [x]) == if x.category in Categories(s) then Categories(s) else Categories(s) + [x.category]
  {
    assert (s + [x])[..|s + [x]| - 1] == s;
  }

  /** The keys after entry `n` are the keys before it, extended by its category unless already a key. */
  lemma CategoriesPrefixStep(xs: seq<Entry>, n: nat)
    requires n < |xs|
    ensures Categories(xs[..n + 1]) ==
              if xs[n].category in Categories(xs[..n]) then Categories(xs[..n])
              else Categories(xs[..n]) + [xs[n].category]
  {
    assert xs[..n + 1][..n] == xs[..n];
  }

  /** The reference scan from entry `n` takes one step. */
  lemma FirstAppearancesStep(xs: seq<Entry>, n: nat, seen: seq<string>)
    requires n < |xs|
    ensures FirstAppearances(xs[n..], seen) ==
              if xs[n].category in seen then FirstAppearances(xs[n + 1..], seen)
              else [xs[n].category] + FirstAppearances(xs[n + 1..], seen + [xs[n].category])
  {
    assert xs[n..][1..] == xs[n + 1..];
  }

  /**
   * Past a prefix, the remaining keys follow in the order the reference scan
   * finds them when it starts from the prefix's keys.
   */
  lemma {:induction false} CategoriesExtend(xs: seq<Entry>, n: nat)
    requires n <= |xs|
    ensures Categories(xs) == Categories(xs[..n]) + FirstAppearances(xs[n..], Categories(xs[..n]))
    decreases |xs| - n
  {
    if n == |xs| {
      assert xs[..n] == xs && xs[n..] == [];
    } else {
      var c := xs[n].category;
      var ks := Categories(xs[..n]);
      CategoriesPrefixStep(xs, n);
      CategoriesExtend(xs, n + 1);
      FirstAppearancesStep(xs, n, ks);
      if c !in ks {
        var tail := FirstAppearances(xs[n + 1..], ks + [c]);
        assert (ks + [c]) + tail == ks + ([c] + tail);
      }
    }
  }

  /** The chart's categories appear in first-appearance order. */
  lemma CategoriesInFirstAppearanceOrder(xs: seq<Entry>)
    ensures Categories(xs) == FirstAppearances(xs, [])
  {
    CategoriesExtend(xs, 0);
    assert xs[..0] == [] && xs[0..] == xs;
  }

  /** There is one slice per category, named by it and valued at that category's sum. */
  lemma {:induction false} SlicesAt(ks: seq<string>, xs: seq<Entry>, i: int)
    requires 0 <= i < |ks|
    ensures |Slices(ks, xs)| == |ks|
    ensures Slices(ks, xs)[i] == Slice(ks[i], CategorySum(xs, ks[i]))
  {
    if i > 0 {
      SlicesAt(ks[1..], xs, i - 1);
    } else if |ks| > 1 {
      SlicesAt(ks[1..], xs, 0);
    }
  }

  lemma {:induction false} CategorySumAbsent(xs: seq<Entry>, c: string)
    requires forall i :: 0 <= i < |xs| ==> xs[i].category != c
    ensures CategorySum(xs, c) == 0
  {
    if xs != [] {
      CategorySumAbsent(xs[..|xs| - 1], c);
    }
  }

  /** A category the list does not show has sum zero. */
  lemma {:induction false} CategorySumUnlisted(xs: seq<Entry>, c: string)
    requires c !in Categories(xs)
    ensures CategorySum(xs, c) == 0
  {
    CategoriesSpec(xs);
    CategorySumAbsent(xs, c);
  }

  lemma {:induction false} SlicesStep(ks: seq<string>, p: seq<Entry>, e: Entry)
    requires Distinct(ks)
    ensures SliceTotal(Slices(ks, p + [e])) == SliceTotal(Slices(ks, p)) + (if e.category in ks then e.amount else 0)
  {
    assert (p + [e])[..|p + [e]| - 1] == p;
    if ks != [] {
      SlicesStep(ks[1..], p, e);
      assert e.category == ks[0] ==> e.category !in ks[1..];
    }
  }

  lemma {:induction false} SlicesAppend(ks: seq<string>, c: string, xs: seq<Entry>)
    ensures SliceTotal(Slices(ks + [c], xs)) == SliceTotal(Slices(ks, xs)) + CategorySum(xs, c)
  {
    if ks == [] {
      assert ks + [c] == [c];
    } else {
      assert (ks + [c])[1..] == ks[1..] + [c];
      SlicesAppend(ks[1..], c, xs);
    }
  }

  /** The chart's values add up to the list's total. */
  lemma {:induction false} AggregateTotal(xs: seq<Entry>)
    ensures SliceTotal(Aggregate(xs)) == Total(xs)
  {
    if xs != [] {
      var p, e := xs[..|xs| - 1], xs[|xs| - 1];
      assert xs == p + [e];
      AggregateTotal(p);
      var ks := Categories(p);
      CategoriesSpec(p);
      SlicesStep(ks, p, e);
      if e.category !in ks {
        SlicesAppend(ks, e.category, xs);
        CategorySumUnlisted(p, e.category);
      }
    }
  }
}
