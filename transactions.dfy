/**
 The transaction list: the category options, the search-and-category filter,
 the sort by date, amount or category, and the total of what is shown. Every
 step builds a new sequence; the expense list it reads is never changed.
 */
module Transactions {
  import opened Seqs
  import opened Records

  /** `[...new Set(expenses.map(expense => expense.category))]`. */
  function Categories(es: seq<Expense>): (r: seq<string>)
    ensures NoDuplicates(r)
    ensures forall c :: c in r <==> exists e :: e in es && e.category == c
  {
    var all := CategoriesOf(es);
    assert forall c :: c in all <==> exists e :: e in es && e.category == c by {
      forall c | c in all ensures exists e :: e in es && e.category == c {
        var i :| 0 <= i < |all| && all[i] == c;
        assert es[i] in es;
      }
    }
    Dedup(all)
  }

  /** The category options come in the order in which each category first occurs in the expense list. */
  lemma CategoriesInFirstOccurrenceOrder(es: seq<Expense>)
    ensures forall i, j :: 0 <= i < j < |Categories(es)| ==>
      FirstIndex(CategoriesOf(es), Categories(es)[i]) < FirstIndex(CategoriesOf(es), Categories(es)[j])
  {
    DedupFirstOccurrenceOrder(CategoriesOf(es));
  }

  // ----- case folding and substring search -----

  /** `toLowerCase` on one character; only the letters A to Z are folded. */
  function LowerChar(c: char): char
  {
    if 'A' <= c <= 'Z' then (c as int + 32) as char else c
  }

  function Lower(s: string): string
  {
    Map(s, LowerChar)
  }

  predicate StartsWith(s: string, t: string)
  {
    |t| <= |s| && s[..|t|] == t
  }

  /** `t` occurs in `s` at position `i`. */
  predicate OccursAt(s: string, t: string, i: int)
  {
    0 <= i <= |s| - |t| && s[i..i + |t|] == t
  }

  /** `s.includes(t)`: `t` is a prefix of `s` or of one of its suffixes. */
  predicate Includes(s: string, t: string)
  {
    StartsWith(s, t) || (s != [] && Includes(s[1..], t))
  }

  /** `Includes` agrees with the positional definition of a substring, in both directions. */
  lemma {:induction false} IncludesIffOccurs(s: string, t: string)
    ensures Includes(s, t) <==> exists i :: OccursAt(s, t, i)
  {
    if StartsWith(s, t) {
      assert OccursAt(s, t, 0);
    } else if s == [] {
      assert |t| > 0;
    } else {
      IncludesIffOccurs(s[1..], t);
      if Includes(s[1..], t) {
        var i :| OccursAt(s[1..], t, i);
        assert s[1..][i..i + |t|] == s[i + 1..i + 1 + |t|];
        assert OccursAt(s, t, i + 1);
      }
      if exists i :: OccursAt(s, t, i) {
        var i :| OccursAt(s, t, i);
        assert i != 0;
        assert s[1..][i - 1..i - 1 + |t|] == s[i..i + |t|];
        assert OccursAt(s[1..], t, i - 1);
      }
    }
  }

  lemma IncludesEmpty(s: string)
    ensures Includes(s, "")
  {
    assert StartsWith(s, "");
  }

  /** The filter predicate: the folded description contains the folded search term, and the category is unset or equal. */
  function Matches(searchTerm: string, selectedCategory: string): Expense -> bool
  {
    (e: Expense) =>
      Includes(Lower(e.description), Lower(searchTerm)) && (selectedCategory == "" || e.category == selectedCategory)
  }

  /** The filter predicate spelled out: a position where the folded term occurs, and the category condition. */
  lemma MatchesSpec(searchTerm: string, selectedCategory: string, e: Expense)
    ensures Matches(searchTerm, selectedCategory)(e) <==>
      && (exists i :: OccursAt(Lower(e.description), Lower(searchTerm), i))
      && (selectedCategory == "" || e.category == selectedCategory)
  {
    IncludesIffOccurs(Lower(e.description), Lower(searchTerm));
  }

  /** With no search term and no category the filter keeps every expense, in order. */
  lemma FilterWithNothingSelected(es: seq<Expense>)
    ensures Filter(es, Matches("", "")) == es
  {
    forall e | e in es ensures Matches("", "")(e) {
      IncludesEmpty(Lower(e.description));
    }
  }

  // ----- the comparator -----

  function Sign(x: int): int
  {
    if x < 0 then -1 else if x > 0 then 1 else 0
  }

  function SignReal(x: real): int
  {
    if x < 0.0 then -1 else if x > 0.0 then 1 else 0
  }

  /** `a.localeCompare(b)`, taken as the lexicographic order of character codes. */
  function StringCompare(a: string, b: string): (r: int)
    ensures -1 <= r <= 1
  {
    if a == [] && b == [] then 0
    else if a == [] then -1
    else if b == [] then 1
    else if a[0] < b[0] then -1
    else if a[0] > b[0] then 1
    else StringCompare(a[1..], b[1..])
  }

  lemma {:induction false} StringCompareAntisymmetric(a: string, b: string)
    ensures StringCompare(a, b) == -StringCompare(b, a)
  {
    if a != [] && b != [] && a[0] == b[0] {
      StringCompareAntisymmetric(a[1..], b[1..]);
    }
  }

  lemma {:induction false} StringCompareZero(a: string, b: string)
    ensures StringCompare(a, b) == 0 <==> a == b
  {
    if a != [] && b != [] && a[0] == b[0] {
      StringCompareZero(a[1..], b[1..]);
      assert a == [a[0]] + a[1..] && b == [b[0]] + b[1..];
    }
  }

  lemma {:induction false} StringCompareTransitive(a: string, b: string, c: string)
    requires StringCompare(a, b) <= 0 && StringCompare(b, c) <= 0
    ensures StringCompare(a, c) <= 0
  {
    if a != [] && b != [] && c != [] && a[0] == b[0] && b[0] == c[0] {
      StringCompareTransitive(a[1..], b[1..], c[1..]);
    }
  }

  /** The sign of the comparator passed to `sort`; an unknown key compares everything as equal. */
  function Compare(sortBy: string, a: Expense, b: Expense): int
  {
    if sortBy == "date" then Sign(b.date - a.date)
    else if sortBy == "amount" then SignReal(b.amount - a.amount)
    else if sortBy == "category" then StringCompare(a.category, b.category)
    else 0
  }

  lemma CompareAntisymmetric(sortBy: string, a: Expense, b: Expense)
    ensures Compare(sortBy, a, b) == -Compare(sortBy, b, a)
  {
    if sortBy == "category" {
      StringCompareAntisymmetric(a.category, b.category);
    }
  }

  lemma CompareTransitive(sortBy: string, a: Expense, b: Expense, c: Expense)
    requires Compare(sortBy, a, b) <= 0 && Compare(sortBy, b, c) <= 0
    ensures Compare(sortBy, a, c) <= 0
  {
    if sortBy == "category" {
      StringCompareTransitive(a.category, b.category, c.category);
    }
  }

  /** Every pair in order: what `sort` promises for a comparator that is a total preorder. */
  ghost predicate SortedBy(sortBy: string, s: seq<Expense>)
  {
    forall i, j :: 0 <= i < j < |s| ==> Compare(sortBy, s[i], s[j]) <= 0
  }

  /** The expenses the comparator cannot tell apart from `y`. */
  function TiedWith(sortBy: string, y: Expense): Expense -> bool
  {
    (e: Expense) => Compare(sortBy, e, y) == 0
  }

  // ----- the stable sort -----

  /** Puts `x` in front of the first element it does not come after. */
  function Insert(sortBy: string, x: Expense, s: seq<Expense>): (r: seq<Expense>)
    ensures |r| == |s| + 1
    ensures multiset(r) == multiset(s) + multiset{x}
  {
    if s == [] then [x]
    else if Compare(sortBy, x, s[0]) <= 0 then [x] + s
    else
      assert s == [s[0]] + s[1..];
      [s[0]] + Insert(sortBy, x, s[1..])
  }

  /**
   `Array.prototype.sort` with the comparator, which ECMAScript requires to be
   stable since its 2019 edition: an insertion sort that inserts each element in
   front of the equal ones that follow it in the input.
   */
  function SortExpenses(sortBy: string, s: seq<Expense>): (r: seq<Expense>)
    ensures |r| == |s|
    ensures multiset(r) == multiset(s)
  {
    if s == [] then []
    else
      assert s == [s[0]] + s[1..];
      Insert(sortBy, s[0], SortExpenses(sortBy, s[1..]))
  }

  /** An element placed in front of a sorted list that it comes no later than every element of keeps the list sorted. */
  lemma ConsSorted(sortBy: string, h: Expense, rest: seq<Expense>)
    requires SortedBy(sortBy, rest)
    requires forall y :: y in rest ==> Compare(sortBy, h, y) <= 0
    ensures SortedBy(sortBy, [h] + rest)
  {
    var r := [h] + rest;
    forall i, j | 0 <= i < j < |r| ensures Compare(sortBy, r[i], r[j]) <= 0 {
      if i == 0 {
        assert r[j] == rest[j - 1] && rest[j - 1] in rest;
      } else {
        assert r[i] == rest[i - 1] && r[j] == rest[j - 1];
      }
    }
  }

  /** An element that comes no later than the head of a sorted list comes no later than all of it. */
  lemma BeforeHeadBeforeAll(sortBy: string, x: Expense, s: seq<Expense>)
    requires SortedBy(sortBy, s) && s != [] && Compare(sortBy, x, s[0]) <= 0
    ensures forall y :: y in s ==> Compare(sortBy, x, y) <= 0
  {
    forall y | y in s ensures Compare(sortBy, x, y) <= 0 {
      var k :| 0 <= k < |s| && s[k] == y;
      if k > 0 { CompareTransitive(sortBy, x, s[0], s[k]); }
    }
  }

  /** The head of a sorted list comes no later than anything `x` can be inserted among behind it. */
  lemma HeadBeforeInsertedTail(sortBy: string, x: Expense, s: seq<Expense>)
    requires SortedBy(sortBy, s) && s != [] && Compare(sortBy, x, s[0]) > 0
    ensures forall y :: y in Insert(sortBy, x, s[1..]) ==> Compare(sortBy, s[0], y) <= 0
  {
    var rest := Insert(sortBy, x, s[1..]);
    CompareAntisymmetric(sortBy, x, s[0]);
    forall y | y in rest ensures Compare(sortBy, s[0], y) <= 0 {
      assert y in multiset(rest);
      if y != x {
        assert y in multiset(s[1..]);
        var k :| 1 <= k < |s| && s[k] == y;
      }
    }
  }

  lemma {:induction false} InsertSorted(sortBy: string, x: Expense, s: seq<Expense>)
    requires SortedBy(sortBy, s)
    ensures SortedBy(sortBy, Insert(sortBy, x, s))
  {
    if s == [] {
    } else if Compare(sortBy, x, s[0]) <= 0 {
      BeforeHeadBeforeAll(sortBy, x, s);
      ConsSorted(sortBy, x, s);
    } else {
      assert SortedBy(sortBy, s[1..]);
      InsertSorted(sortBy, x, s[1..]);
      HeadBeforeInsertedTail(sortBy, x, s);
      ConsSorted(sortBy, s[0], Insert(sortBy, x, s[1..]));
    }
  }

  /** The sorted list is in order. */
  lemma {:induction false} SortExpensesSorted(sortBy: string, s: seq<Expense>)
    ensures SortedBy(sortBy, SortExpenses(sortBy, s))
  {
    if s != [] {
      SortExpensesSorted(sortBy, s[1..]);
      InsertSorted(sortBy, s[0], SortExpenses(sortBy, s[1..]));
    }
  }

  /** Inserting `x` adds it in front of its ties and leaves the order of every tie class as it was. */
  lemma {:induction false} InsertKeepsTies(sortBy: string, x: Expense, s: seq<Expense>, y: Expense)
    ensures Filter(Insert(sortBy, x, s), TiedWith(sortBy, y)) ==
      (if Compare(sortBy, x, y) == 0 then [x] else []) + Filter(s, TiedWith(sortBy, y))
  {
    if s == [] {
      FilterCons(x, [], TiedWith(sortBy, y));
    } else if Compare(sortBy, x, s[0]) <= 0 {
      FilterCons(x, s, TiedWith(sortBy, y));
    } else {
      InsertKeepsTies(sortBy, x, s[1..], y);
      InsertPastHeadKeepsTies(sortBy, x, s, y);
    }
  }

  /** The step of `InsertKeepsTies` where `x` goes past the first element. */
  lemma InsertPastHeadKeepsTies(sortBy: string, x: Expense, s: seq<Expense>, y: Expense)
    requires s != [] && Compare(sortBy, x, s[0]) > 0
    requires Filter(Insert(sortBy, x, s[1..]), TiedWith(sortBy, y)) ==
      (if Compare(sortBy, x, y) == 0 then [x] else []) + Filter(s[1..], TiedWith(sortBy, y))
    ensures Filter(Insert(sortBy, x, s), TiedWith(sortBy, y)) ==
      (if Compare(sortBy, x, y) == 0 then [x] else []) + Filter(s, TiedWith(sortBy, y))
  {
    var p := TiedWith(sortBy, y);
    var mine: seq<Expense> := if Compare(sortBy, x, y) == 0 then [x] else [];
    var rest := Insert(sortBy, x, s[1..]);
    var head: seq<Expense> := if p(s[0]) then [s[0]] else [];
    assert Insert(sortBy, x, s) == [s[0]] + rest;
    FilterCons(s[0], rest, p);
    assert Filter(s, p) == head + Filter(s[1..], p);
    NotTiedWithBoth(sortBy, x, s[0], y);
    assert p(s[0]) == (Compare(sortBy, s[0], y) == 0);
    SwapEmpty(head, mine, Filter(s[1..], p));
  }

  lemma SwapEmpty<T>(a: seq<T>, b: seq<T>, c: seq<T>)
    requires a == [] || b == []
    ensures a + (b + c) == b + (a + c)
  {
  }

  /** An element that `x` comes strictly after is not in `x`'s tie class. */
  lemma NotTiedWithBoth(sortBy: string, x: Expense, z: Expense, y: Expense)
    requires Compare(sortBy, x, z) > 0
    ensures !(Compare(sortBy, x, y) == 0 && Compare(sortBy, z, y) == 0)
  {
    if Compare(sortBy, x, y) == 0 && Compare(sortBy, z, y) == 0 {
      CompareAntisymmetric(sortBy, z, y);
      CompareTransitive(sortBy, x, y, z);
    }
  }

  /** Stability: within every class of equal keys the sorted list keeps the input order. */
  lemma {:induction false} SortExpensesStable(sortBy: string, s: seq<Expense>, y: Expense)
    ensures Filter(SortExpenses(sortBy, s), TiedWith(sortBy, y)) == Filter(s, TiedWith(sortBy, y))
  {
    if s != [] {
      SortExpensesStable(sortBy, s[1..], y);
      InsertKeepsTies(sortBy, s[0], SortExpenses(sortBy, s[1..]), y);
      FilterCons(s[0], s[1..], TiedWith(sortBy, y));
      assert s == [s[0]] + s[1..];
    }
  }

  /** A key the comparator does not know returns 0 for every pair, so the order is left as it is. */
  lemma {:induction false} SortUnknownKeyIsIdentity(sortBy: string, s: seq<Expense>)
    requires sortBy != "date" && sortBy != "amount" && sortBy != "category"
    ensures SortExpenses(sortBy, s) == s
  {
    if s != [] {
      SortUnknownKeyIsIdentity(sortBy, s[1..]);
      assert s == [s[0]] + s[1..];
    }
  }

  lemma {:induction false} TotalInsert(sortBy: string, x: Expense, s: seq<Expense>)
    ensures Total(Insert(sortBy, x, s)) == x.amount + Total(s)
  {
    if s == [] {
      TotalSingleton(x);
    } else if Compare(sortBy, x, s[0]) <= 0 {
      TotalCons(x, s);
    } else {
      TotalInsert(sortBy, x, s[1..]);
      TotalCons(s[0], Insert(sortBy, x, s[1..]));
      TotalCons(s[0], s[1..]);
      assert s == [s[0]] + s[1..];
    }
  }

  lemma {:induction false} TotalSort(sortBy: string, s: seq<Expense>)
    ensures Total(SortExpenses(sortBy, s)) == Total(s)
  {
    if s != [] {
      TotalSort(sortBy, s[1..]);
      TotalInsert(sortBy, s[0], SortExpenses(sortBy, s[1..]));
      TotalCons(s[0], s[1..]);
      assert s == [s[0]] + s[1..];
    }
  }

  // ----- the list the screen shows -----

  /** `filteredExpenses`: filter, then sort the fresh array `filter` returned. */
  function FilteredExpenses(expenses: seq<Expense>, searchTerm: string, selectedCategory: string, sortBy: string): seq<Expense>
  {
    SortExpenses(sortBy, Filter(expenses, Matches(searchTerm, selectedCategory)))
  }

  /** `totalAmount`. */
  function TotalAmount(filtered: seq<Expense>): real
  {
    Total(filtered)
  }

  /** The shown list is a permutation of the matching expenses, in the order of the key, stable on ties. */
  lemma FilteredExpensesSpec(expenses: seq<Expense>, searchTerm: string, selectedCategory: string, sortBy: string)
    ensures multiset(FilteredExpenses(expenses, searchTerm, selectedCategory, sortBy))
      == multiset(Filter(expenses, Matches(searchTerm, selectedCategory)))
    ensures forall e :: e in FilteredExpenses(expenses, searchTerm, selectedCategory, sortBy) <==>
      e in expenses && Matches(searchTerm, selectedCategory)(e)
    ensures SortedBy(sortBy, FilteredExpenses(expenses, searchTerm, selectedCategory, sortBy))
    ensures forall y ::
      Filter(FilteredExpenses(expenses, searchTerm, selectedCategory, sortBy), TiedWith(sortBy, y))
        == Filter(Filter(expenses, Matches(searchTerm, selectedCategory)), TiedWith(sortBy, y))
  {
    var matching := Filter(expenses, Matches(searchTerm, selectedCategory));
    var r := FilteredExpenses(expenses, searchTerm, selectedCategory, sortBy);
    SortExpensesSorted(sortBy, matching);
    forall y ensures Filter(r, TiedWith(sortBy, y)) == Filter(matching, TiedWith(sortBy, y)) {
      SortExpensesStable(sortBy, matching, y);
    }
    forall e ensures e in r <==> e in matching {
      assert e in r <==> e in multiset(r);
      assert e in matching <==> e in multiset(matching);
    }
  }

  /** What "in order" means for each of the three keys the screen offers. */
  lemma SortedMeaning(sortBy: string, r: seq<Expense>)
    requires SortedBy(sortBy, r)
    ensures sortBy == "date" ==> forall i, j :: 0 <= i < j < |r| ==> r[i].date >= r[j].date
    ensures sortBy == "amount" ==> forall i, j :: 0 <= i < j < |r| ==> r[i].amount >= r[j].amount
    ensures sortBy == "category" ==> forall i, j :: 0 <= i < j < |r| ==> StringCompare(r[i].category, r[j].category) <= 0
  {
  }

  /** The total shown is the sum over the matching expenses, whichever key the list is sorted by. */
  lemma TotalAmountIgnoresSortKey(expenses: seq<Expense>, searchTerm: string, selectedCategory: string, sortBy: string)
    ensures TotalAmount(FilteredExpenses(expenses, searchTerm, selectedCategory, sortBy))
      == Total(Filter(expenses, Matches(searchTerm, selectedCategory)))
  {
    TotalSort(sortBy, Filter(expenses, Matches(searchTerm, selectedCategory)));
  }

  /** With nothing typed and no category chosen, the list before sorting is the expense list itself. */
  lemma NothingSelectedShowsEverything(expenses: seq<Expense>, sortBy: string)
    ensures multiset(FilteredExpenses(expenses, "", "", sortBy)) == multiset(expenses)
    ensures sortBy != "date" && sortBy != "amount" && sortBy != "category" ==>
      FilteredExpenses(expenses, "", "", sortBy) == expenses
  {
    FilterWithNothingSelected(expenses);
    if sortBy != "date" && sortBy != "amount" && sortBy != "category" {
      SortUnknownKeyIsIdentity(sortBy, expenses);
    }
  }

  /** Equal amounts keep their input order: two expenses of 10 stay in front of one of 5, in the order given. */
  /** Sorting a list with a first element inserts it into the sorted rest. */
  lemma SortExpensesCons(sortBy: string, x: Expense, s: seq<Expense>)
    ensures SortExpenses(sortBy, [x] + s) == Insert(sortBy, x, SortExpenses(sortBy, s))
  {
    assert ([x] + s)[0] == x && ([x] + s)[1..] == s;
  }

  /** An element that does not come after the head goes in front. */
  lemma InsertInFront(sortBy: string, x: Expense, s: seq<Expense>)
    requires s != [] && Compare(sortBy, x, s[0]) <= 0
    ensures Insert(sortBy, x, s) == [x] + s
  {
  }

  lemma AmountSortScenario(e1: Expense, e2: Expense, e3: Expense)
    requires e1.amount == 10.0 && e2.amount == 10.0 && e3.amount == 5.0
    ensures SortExpenses("amount", [e1, e2, e3]) == [e1, e2, e3]
  {
    SortExpensesCons("amount", e3, []);
    assert SortExpenses("amount", [e3]) == [e3];
    SortExpensesCons("amount", e2, [e3]);
    InsertInFront("amount", e2, [e3]);
    assert SortExpenses("amount", [e2, e3]) == [e2, e3];
    SortExpensesCons("amount", e1, [e2, e3]);
    InsertInFront("amount", e1, [e2, e3]);
    assert [e1] + [e2, e3] == [e1, e2, e3];
  }
}
