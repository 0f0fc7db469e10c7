// The checkbox selection shared by src/components/invoice/InvoiceList.tsx
// and src/components/MattressInvoiceApp.tsx: a set of quote numbers that
// one checkbox toggles and the header checkbox fills or clears.  Both
// handlers build a new set from the old one, so they are functions here.

module Selection {
  /** The distinct values of a list. */
  function Elements<T>(xs: seq<T>): set<T>
  {
    set k | 0 <= k < |xs| :: xs[k]
  }

  predicate Distinct<T(==)>(xs: seq<T>)
  {
    forall i, j :: 0 <= i < j < |xs| ==> xs[i] != xs[j]
  }

  /** `toggleInvoiceSelection(q)`: removes `q` when it is selected, adds it otherwise. */
  function Toggle<T>(selection: set<T>, q: T): set<T>
  {
    if q in selection then selection - {q} else selection + {q}
  }

  /**
   * `toggleSelectAll()`: clears the selection when it has as many entries
   * as there are listed invoices, and selects every listed number otherwise.
   */
  function ToggleAll<T>(selection: set<T>, listed: seq<T>): set<T>
  {
    if |selection| == |listed| then {} else Elements(listed)
  }

  /** A toggle flips the membership of exactly one number. */
  lemma ToggleFlipsOne<T>(selection: set<T>, q: T, other: T)
    ensures q in Toggle(selection, q) <==> q !in selection
    ensures other != q ==> (other in Toggle(selection, q) <==> other in selection)
  {
  }

  /** Toggling the same number twice gives the selection back. */
  lemma ToggleTwice<T>(selection: set<T>, q: T)
    ensures Toggle(Toggle(selection, q), q) == selection
  {
  }

  /** A toggle changes the size of the selection by exactly one. */
  lemma ToggleSize<T>(selection: set<T>, q: T)
    ensures q in selection ==> |Toggle(selection, q)| == |selection| - 1
    ensures q !in selection ==> |Toggle(selection, q)| == |selection| + 1
  {
  }

  /** A list of distinct numbers has as many distinct values as entries. */
  lemma {:induction false} DistinctElements<T>(xs: seq<T>)
    requires Distinct(xs)
    ensures |Elements(xs)| == |xs|
    decreases |xs|
  {
    if |xs| > 0 {
      var rest := xs[..|xs| - 1];
      var last := xs[|xs| - 1];
      assert Distinct(rest);
      DistinctElements(rest);
      assert Elements(xs) == Elements(rest) + {last} by {
        forall v | v in Elements(xs) ensures v in Elements(rest) + {last} {
          var k :| 0 <= k < |xs| && xs[k] == v;
          if k < |xs| - 1 {
            assert rest[k] == v;
          }
        }
        forall v | v in Elements(rest) ensures v in Elements(xs) {
          var k :| 0 <= k < |rest| && rest[k] == v;
          assert xs[k] == v;
        }
      }
      assert last !in Elements(rest) by {
        forall k | 0 <= k < |rest| ensures rest[k] != last {
          assert rest[k] == xs[k];
        }
      }
    }
  }

  /** A list with a repeated number has fewer distinct values than entries. */
  lemma {:induction false} RepeatedElements<T>(xs: seq<T>, i: nat, j: nat)
    requires i < j < |xs| && xs[i] == xs[j]
    ensures |Elements(xs)| < |xs|
    decreases |xs|
  {
    var rest := xs[..j] + xs[j + 1..];
    assert Elements(xs) == Elements(rest) by {
      forall v | v in Elements(xs) ensures v in Elements(rest) {
        var k :| 0 <= k < |xs| && xs[k] == v;
        if k < j {
          assert rest[k] == v;
        } else if k == j {
          assert rest[i] == v;
        } else {
          assert rest[k - 1] == v;
        }
      }
      forall v | v in Elements(rest) ensures v in Elements(xs) {
        var k :| 0 <= k < |rest| && rest[k] == v;
        if k < j {
          assert xs[k] == v;
        } else {
          assert xs[k + 1] == v;
        }
      }
    }
    ElementsAtMost(rest);
  }

  lemma {:induction false} ElementsAtMost<T>(xs: seq<T>)
    ensures |Elements(xs)| <= |xs|
    decreases |xs|
  {
    if |xs| > 0 {
      var rest := xs[..|xs| - 1];
      ElementsAtMost(rest);
      assert Elements(xs) == Elements(rest) + {xs[|xs| - 1]} by {
        forall v | v in Elements(xs) ensures v in Elements(rest) + {xs[|xs| - 1]} {
          var k :| 0 <= k < |xs| && xs[k] == v;
          if k < |xs| - 1 {
            assert rest[k] == v;
          }
        }
        forall v | v in Elements(rest) ensures v in Elements(xs) {
          var k :| 0 <= k < |rest| && rest[k] == v;
          assert xs[k] == v;
        }
      }
      assert |Elements(rest) + {xs[|xs| - 1]}| <= |Elements(rest)| + 1;
    }
  }

  /**
   * With distinct numbers the header checkbox alternates: from nothing
   * selected it selects every listed number, and pressed again it clears.
   */
  lemma SelectAllThenClear<T>(listed: seq<T>)
    requires Distinct(listed) && |listed| > 0
    ensures ToggleAll({}, listed) == Elements(listed)
    ensures ToggleAll(ToggleAll({}, listed), listed) == {}
  {
    DistinctElements(listed);
  }

  /**
   * When two listed invoices share a number (two without a quote number
   * both count as ''), selecting all never reaches the list's length, so
   * the header checkbox can no longer clear the selection it made.
   */
  lemma SharedNumberNeverClears<T>(listed: seq<T>, i: nat, j: nat)
    requires i < j < |listed| && listed[i] == listed[j]
    ensures ToggleAll(Elements(listed), listed) == Elements(listed)
  {
    RepeatedElements(listed, i, j);
  }
}
