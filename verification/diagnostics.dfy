// What a validation pass produces: an errors list and a warnings list, each appended to in
// order, and the result `validate()` returns. A check that loops over elements appends,
// per element, what that element produces; `Collect` is the list that loop leaves behind.
module Diagnostics {

  /** The diagnostics one check (or one element inside a check) contributes. */
  datatype Findings<E, W> = Findings(errors: seq<E>, warnings: seq<W>)
  {
    /** These findings followed by `next`'s, list by list. */
    function Then(next: Findings<E, W>): Findings<E, W>
    {
      Findings(errors + next.errors, warnings + next.warnings)
    }
  }

  /** Appending to a list in two steps is appending the two parts at once. */
  lemma AppendAssoc<T>(a: seq<T>, b: seq<T>, c: seq<T>)
    ensures a + (b + c) == a + b + c
  {
  }

  /** Appending two checks' findings one after the other is appending them joined. */
  lemma AppendThen<E, W>(errors: seq<E>, warnings: seq<W>, a: Findings<E, W>, b: Findings<E, W>)
    ensures errors + a.Then(b).errors == errors + a.errors + b.errors
    ensures warnings + a.Then(b).warnings == warnings + a.warnings + b.warnings
  {
  }

  /** The list never steps back to an earlier `rank`: its items come grouped by rank, in
      increasing order. */
  predicate Ascending<T>(s: seq<T>, rank: T -> nat)
  {
    forall i, j :: 0 <= i < j < |s| ==> rank(s[i]) <= rank(s[j])
  }

  /** A list whose items all share one rank is grouped. */
  lemma SameRankAscending<T>(s: seq<T>, rank: T -> nat, r: nat)
    requires forall x :: x in s ==> rank(x) == r
    ensures Ascending(s, rank)
  {
    forall i, j | 0 <= i < j < |s| ensures rank(s[i]) <= rank(s[j]) {
      assert s[i] in s && s[j] in s;
    }
  }

  /** Two grouped lists, the first ranked no higher than the second, join into a grouped list. */
  lemma AscendingConcat<T>(a: seq<T>, b: seq<T>, rank: T -> nat)
    requires Ascending(a, rank) && Ascending(b, rank)
    requires forall x, y :: x in a && y in b ==> rank(x) <= rank(y)
    ensures Ascending(a + b, rank)
  {
    forall i, j | 0 <= i < j < |a + b| ensures rank((a + b)[i]) <= rank((a + b)[j]) {
      if j < |a| {
        assert (a + b)[i] == a[i] && (a + b)[j] == a[j];
      } else if i >= |a| {
        assert (a + b)[i] == b[i - |a|] && (a + b)[j] == b[j - |a|];
      } else {
        assert (a + b)[i] == a[i] && a[i] in a;
        assert (a + b)[j] == b[j - |a|] && b[j - |a|] in b;
      }
    }
  }

  /** A grouped list ranked at most `r`, followed by a group of rank `r`, is grouped and
      ranked at most `r`: checks that run in rank order leave their output grouped. */
  lemma AppendGroup<T>(a: seq<T>, b: seq<T>, rank: T -> nat, r: nat)
    requires Ascending(a, rank)
    requires forall x :: x in a ==> rank(x) <= r
    requires forall y :: y in b ==> rank(y) == r
    ensures Ascending(a + b, rank)
    ensures forall x :: x in a + b ==> rank(x) <= r
  {
    SameRankAscending(b, rank, r);
    AscendingConcat(a, b, rank);
  }

  /** The dictionary `validate()` returns: `is_valid`, `errors`, `warnings`. */
  datatype ValidationResult<E, W> = ValidationResult(isValid: bool, errors: seq<E>, warnings: seq<W>)

  /** What running `each` over `items`, in order, appends. */
  function Collect<T, E, W>(items: seq<T>, each: T -> Findings<E, W>): Findings<E, W>
  {
    if items == [] then Findings([], [])
    else Collect(items[..|items| - 1], each).Then(each(items[|items| - 1]))
  }

  /** One more loop iteration appends what the next element produces. */
  lemma {:induction false} CollectStep<T, E, W>(items: seq<T>, each: T -> Findings<E, W>, i: nat)
    requires i < |items|
    ensures Collect(items[..i + 1], each) == Collect(items[..i], each).Then(each(items[i]))
  {
    assert items[..i + 1][..i] == items[..i];
  }

  /** An error is reported exactly when some element produces it. */
  lemma {:induction false} CollectErrors<T, E, W>(items: seq<T>, each: T -> Findings<E, W>, e: E)
    ensures e in Collect(items, each).errors <==> exists i :: 0 <= i < |items| && e in each(items[i]).errors
  {
    if items != [] {
      var init := items[..|items| - 1];
      CollectErrors(init, each, e);
      if e in Collect(items, each).errors && e !in each(items[|items| - 1]).errors {
        var i :| 0 <= i < |init| && e in each(init[i]).errors;
        assert items[i] == init[i];
      }
      if exists i :: 0 <= i < |items| && e in each(items[i]).errors {
        var i :| 0 <= i < |items| && e in each(items[i]).errors;
        if i < |init| {
          assert init[i] == items[i];
        }
      }
    }
  }

  /** A warning is reported exactly when some element produces it. */
  lemma {:induction false} CollectWarnings<T, E, W>(items: seq<T>, each: T -> Findings<E, W>, w: W)
    ensures w in Collect(items, each).warnings <==> exists i :: 0 <= i < |items| && w in each(items[i]).warnings
  {
    if items != [] {
      var init := items[..|items| - 1];
      CollectWarnings(init, each, w);
      if w in Collect(items, each).warnings && w !in each(items[|items| - 1]).warnings {
        var i :| 0 <= i < |init| && w in each(init[i]).warnings;
        assert items[i] == init[i];
      }
      if exists i :: 0 <= i < |items| && w in each(items[i]).warnings {
        var i :| 0 <= i < |items| && w in each(items[i]).warnings;
        if i < |init| {
          assert init[i] == items[i];
        }
      }
    }
  }

  /** When every element produces at most one error and one warning, the lists are no
      longer than the element list. */
  lemma {:induction false} CollectAtMostOneEach<T, E, W>(items: seq<T>, each: T -> Findings<E, W>)
    requires forall i :: 0 <= i < |items| ==> |each(items[i]).errors| <= 1 && |each(items[i]).warnings| <= 1
    ensures |Collect(items, each).errors| <= |items| && |Collect(items, each).warnings| <= |items|
  {
    if items != [] {
      var init := items[..|items| - 1];
      assert forall i :: 0 <= i < |init| ==> init[i] == items[i];
      CollectAtMostOneEach(init, each);
    }
  }
}
