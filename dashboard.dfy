/** The cost centre (`components/Dashboard.tsx`): the cost aggregates and the
    budget bar, the running cost trend in date order, the new-entry form, and
    the CSV report. Money is integer cents; the budget percentage is exact.
    Turning a date string into a time value is a parameter (`dateKey`), and so
    is `parseFloat` on the amount field. */
module Dashboard {
  import opened Types
  import opened Text
  import opened Collections

  // ---------------------------------------------------------------- sums

  /** `costEntries.reduce((sum, entry) => sum + entry.amount, 0)`. */
  function SumAmounts(entries: seq<CostEntry>): int
  {
    if |entries| == 0 then 0 else SumAmounts(entries[..|entries| - 1]) + entries[|entries| - 1].amount
  }

  /** The sum of a concatenation is the sum of the parts. */
  lemma {:induction false} SumConcat(a: seq<CostEntry>, b: seq<CostEntry>)
    ensures SumAmounts(a + b) == SumAmounts(a) + SumAmounts(b)
    decreases |b|
  {
    if |b| > 0 {
      assert (a + b)[..|a + b| - 1] == a + b[..|b| - 1];
      SumConcat(a, b[..|b| - 1]);
    } else {
      assert a + b == a;
    }
  }

  /** Taking entry `j` out lowers the sum by its amount. */
  lemma SumWithout(b: seq<CostEntry>, j: nat)
    requires j < |b|
    ensures SumAmounts(b) == SumAmounts(b[..j] + b[j + 1..]) + b[j].amount
  {
    var pre, x, post := b[..j], b[j], b[j + 1..];
    assert b == pre + ([x] + post);
    SumConcat(pre, [x] + post);
    SumConcat(pre, post);
    SumFirst(x, post);
  }

  /** Putting an entry in front adds its amount. */
  lemma SumFirst(x: CostEntry, post: seq<CostEntry>)
    ensures SumAmounts([x] + post) == x.amount + SumAmounts(post)
  {
    SumConcat([x], post);
    assert [x][..0] == [];
  }

  lemma MultisetWithout(b: seq<CostEntry>, j: nat)
    requires j < |b|
    ensures multiset(b[..j] + b[j + 1..]) == multiset(b) - multiset{b[j]}
  {
    assert b == b[..j] + [b[j]] + b[j + 1..];
  }

  /** The sum does not depend on the order of the entries. */
  lemma {:induction false} SumPermutation(a: seq<CostEntry>, b: seq<CostEntry>)
    requires multiset(a) == multiset(b)
    ensures SumAmounts(a) == SumAmounts(b)
    decreases |a|
  {
    if |a| == 0 {
      assert |multiset(b)| == 0;
    } else {
      var x := a[|a| - 1];
      var init := a[..|a| - 1];
      MultisetWithout(a, |a| - 1);
      assert a[..|a| - 1] + a[|a|..] == init;
      assert x in multiset(b);
      var j :| 0 <= j < |b| && b[j] == x;
      MultisetWithout(b, j);
      SumPermutation(init, b[..j] + b[j + 1..]);
      SumWithout(b, j);
    }
  }

  predicate AllPositive(entries: seq<CostEntry>)
  {
    forall i :: 0 <= i < |entries| ==> entries[i].amount > 0
  }

  /** A non-empty run of positive amounts has a positive sum. */
  lemma {:induction false} SumPositive(entries: seq<CostEntry>)
    requires AllPositive(entries)
    ensures SumAmounts(entries) >= |entries|
  {
    if |entries| > 0 {
      SumPositive(entries[..|entries| - 1]);
    }
  }

  /** `materials + labor + dailyCostsTotal`. */
  function TotalCost(fd: FinancialData): (total: int)
    ensures fd.costEntries == [] ==> total == fd.materials + fd.labor
  {
    fd.materials + fd.labor + SumAmounts(fd.costEntries)
  }

  // ------------------------------------------------------ date order

  predicate SortedByDate(s: seq<CostEntry>, dateKey: string -> int)
  {
    forall i, j :: 0 <= i < j < |s| ==> dateKey(s[i].date) <= dateKey(s[j].date)
  }

  /** Put `x` after every entry not later than it. */
  function InsertByDate(x: CostEntry, s: seq<CostEntry>, dateKey: string -> int): (r: seq<CostEntry>)
    ensures multiset(r) == multiset(s) + multiset{x} && |r| == |s| + 1
  {
    if |s| == 0 then [x]
    else if dateKey(s[0].date) > dateKey(x.date) then [x] + s
    else
      assert s == [s[0]] + s[1..];
      [s[0]] + InsertByDate(x, s[1..], dateKey)
  }

  /** The inserted entry or the old first entry comes first. */
  lemma InsertHead(x: CostEntry, s: seq<CostEntry>, dateKey: string -> int)
    ensures |s| == 0 ==> InsertByDate(x, s, dateKey)[0] == x
    ensures |s| > 0 ==> InsertByDate(x, s, dateKey)[0] in {x, s[0]}
  {
  }

  /** Inserting into a date-ordered list keeps it ordered. */
  lemma {:induction false} InsertKeepsSorted(x: CostEntry, s: seq<CostEntry>, dateKey: string -> int)
    requires SortedByDate(s, dateKey)
    ensures SortedByDate(InsertByDate(x, s, dateKey), dateKey)
  {
    if |s| > 0 && dateKey(s[0].date) <= dateKey(x.date) {
      var tail := s[1..];
      var rest := InsertByDate(x, tail, dateKey);
      InsertKeepsSorted(x, tail, dateKey);
      InsertHead(x, tail, dateKey);
      if |tail| > 0 {
        assert tail[0] == s[1];
      }
      assert dateKey(s[0].date) <= dateKey(rest[0].date);
      var r := [s[0]] + rest;
      forall i, j | 0 <= i < j < |r| ensures dateKey(r[i].date) <= dateKey(r[j].date) {
        if i > 0 {
          assert r[i] == rest[i - 1] && r[j] == rest[j - 1];
        } else if j > 1 {
          assert r[j] == rest[j - 1];
          assert dateKey(rest[0].date) <= dateKey(rest[j - 1].date);
        }
      }
    }
  }

  /** The entries dated on day `k`, in their order. */
  function OnDay(s: seq<CostEntry>, dateKey: string -> int, k: int): seq<CostEntry>
  {
    Filter(s, (e: CostEntry) => dateKey(e.date) == k)
  }

  /** The same-day entries of `[x] + s` are `x` (when it is on that day) and then those of `s`. */
  lemma OnDayCons(x: CostEntry, s: seq<CostEntry>, dateKey: string -> int, k: int)
    ensures OnDay([x] + s, dateKey, k) == (if dateKey(x.date) == k then [x] else []) + OnDay(s, dateKey, k)
  {
    assert ([x] + s)[1..] == s;
  }

  /** Inserting into a date-ordered list puts `x` after the entries of its own
      day, leaving every day's entries in their order. */
  lemma {:induction false} InsertStable(x: CostEntry, s: seq<CostEntry>, dateKey: string -> int, k: int)
    requires SortedByDate(s, dateKey)
    ensures OnDay(InsertByDate(x, s, dateKey), dateKey, k)
      == OnDay(s, dateKey, k) + (if dateKey(x.date) == k then [x] else [])
  {
    var xs: seq<CostEntry> := if dateKey(x.date) == k then [x] else [];
    if |s| == 0 {
      OnDayCons(x, [], dateKey, k);
      assert OnDay(s, dateKey, k) == [];
    } else if dateKey(s[0].date) > dateKey(x.date) {
      assert InsertByDate(x, s, dateKey) == [x] + s;
      OnDayCons(x, s, dateKey, k);
      if dateKey(x.date) == k {
        LaterDaysNone(s, dateKey, k);
      }
    } else {
      var tail := s[1..];
      var rest := InsertByDate(x, tail, dateKey);
      var h: seq<CostEntry> := if dateKey(s[0].date) == k then [s[0]] else [];
      assert InsertByDate(x, s, dateKey) == [s[0]] + rest;
      HeadTail(s);
      InsertStable(x, tail, dateKey, k);
      OnDayCons(s[0], rest, dateKey, k);
      OnDayCons(s[0], tail, dateKey, k);
      var ins := InsertByDate(x, s, dateKey);
      assert OnDay(ins, dateKey, k) == OnDay([s[0]] + rest, dateKey, k);
      assert OnDay(ins, dateKey, k) == h + (OnDay(tail, dateKey, k) + xs);
      ConcatAssoc(h, OnDay(tail, dateKey, k), xs);
    }
  }

  /** A date-ordered list whose first entry is after day `k` has no entry on day `k`. */
  lemma LaterDaysNone(s: seq<CostEntry>, dateKey: string -> int, k: int)
    requires SortedByDate(s, dateKey) && |s| > 0 && dateKey(s[0].date) > k
    ensures OnDay(s, dateKey, k) == []
  {
    var keep := (e: CostEntry) => dateKey(e.date) == k;
    forall i | 0 <= i < |s| ensures !keep(s[i]) {
      if i > 0 { assert dateKey(s[0].date) <= dateKey(s[i].date); }
    }
    FilterKeepsNone(s, keep);
  }

  /** The date sort is stable: the entries of any one day keep their ledger order. */
  lemma {:induction false} SortByDateStable(entries: seq<CostEntry>, dateKey: string -> int, k: int)
    ensures OnDay(SortByDate(entries, dateKey), dateKey, k) == OnDay(entries, dateKey, k)
  {
    if |entries| > 0 {
      var init, last := entries[..|entries| - 1], entries[|entries| - 1];
      var lx: seq<CostEntry> := if dateKey(last.date) == k then [last] else [];
      var sortedInit := SortByDate(init, dateKey);
      assert SortByDate(entries, dateKey) == InsertByDate(last, sortedInit, dateKey);
      SortByDateStable(init, dateKey, k);
      InsertStable(last, sortedInit, dateKey, k);
      assert OnDay(SortByDate(entries, dateKey), dateKey, k) == OnDay(init, dateKey, k) + lx;
      InitLast(entries);
      FilterAppend(init, [last], (e: CostEntry) => dateKey(e.date) == k);
      OnDayCons(last, [], dateKey, k);
      assert [last] + [] == [last];
    }
  }

  /** `costEntries.slice().sort(byDate)`, as a stable insertion sort. */
  function SortByDate(entries: seq<CostEntry>, dateKey: string -> int): (r: seq<CostEntry>)
    ensures multiset(r) == multiset(entries) && |r| == |entries|
    ensures SortedByDate(r, dateKey)
  {
    if |entries| == 0 then []
    else
      var init := entries[..|entries| - 1];
      assert entries == init + [entries[|entries| - 1]];
      var sortedInit := SortByDate(init, dateKey);
      InsertKeepsSorted(entries[|entries| - 1], sortedInit, dateKey);
      InsertByDate(entries[|entries| - 1], sortedInit, dateKey)
  }

  // ---------------------------------------------------------- the trend

  /** One point of the cost chart: the entry's date and the running cost. */
  datatype TrendPoint = TrendPoint(date: string, cost: int)

  /** The `map` whose callback bumps `cumulativeAmount`: each point holds the
      base plus the amounts of the entries up to and including its own. */
  method CostTrend(base: int, sorted: seq<CostEntry>) returns (trend: seq<TrendPoint>)
    ensures |trend| == |sorted|
    ensures forall i :: 0 <= i < |sorted| ==>
      trend[i].date == sorted[i].date && trend[i].cost == base + SumAmounts(sorted[..i + 1])
  {
    var cumulativeAmount := base;
    trend := [];
    var k := 0;
    while k < |sorted|
      invariant k <= |sorted| && |trend| == k
      invariant cumulativeAmount == base + SumAmounts(sorted[..k])
      invariant forall i :: 0 <= i < k ==>
        trend[i].date == sorted[i].date && trend[i].cost == base + SumAmounts(sorted[..i + 1])
    {
      assert sorted[..k + 1][..k] == sorted[..k];
      cumulativeAmount := cumulativeAmount + sorted[k].amount;
      trend := trend + [TrendPoint(sorted[k].date, cumulativeAmount)];
      k := k + 1;
    }
  }

  /** The last point of the trend is the total cost. */
  lemma TrendEndsAtTotal(fd: FinancialData, sorted: seq<CostEntry>)
    requires multiset(sorted) == multiset(fd.costEntries) && |sorted| > 0
    ensures fd.materials + fd.labor + SumAmounts(sorted[..|sorted|]) == TotalCost(fd)
  {
    assert sorted[..|sorted|] == sorted;
    SumPermutation(sorted, fd.costEntries);
  }

  /** With positive amounts the running cost strictly increases. */
  lemma TrendIncreasing(sorted: seq<CostEntry>, i: nat, j: nat)
    requires AllPositive(sorted) && i < j < |sorted|
    ensures SumAmounts(sorted[..i + 1]) < SumAmounts(sorted[..j + 1])
  {
    var between := sorted[i + 1..j + 1];
    assert sorted[..j + 1] == sorted[..i + 1] + between;
    SumConcat(sorted[..i + 1], between);
    assert AllPositive(between) by {
      forall k | 0 <= k < |between| ensures between[k].amount > 0 { assert between[k] == sorted[i + 1 + k]; }
    }
    SumPositive(between);
  }

  // --------------------------------------------------------- the budget

  datatype BarColor = CompletedColor | ProgressColor | AlertColor

  /** Spent share of the budget in percent; 0 when there is no positive budget. */
  function BudgetPercentage(totalCost: int, budget: int): (pct: real)
    ensures budget <= 0 ==> pct == 0.0
    ensures budget > 0 ==> pct * budget as real == 100.0 * totalCost as real
  {
    if budget > 0 then
      var q := totalCost as real / budget as real;
      assert q * budget as real == totalCost as real;
      q * 100.0
    else 0.0
  }

  /** Alert above 90%, warning above 75%, normal otherwise. */
  function BarColorOf(pct: real): BarColor
  {
    if pct > 90.0 then AlertColor else if pct > 75.0 then ProgressColor else CompletedColor
  }

  datatype BudgetStatus = BudgetStatus(percentage: real, remaining: int, color: BarColor)

  function BudgetStatusOf(budget: int, totalCost: int): (s: BudgetStatus)
    ensures s.remaining + totalCost == budget
  {
    var pct := BudgetPercentage(totalCost, budget);
    BudgetStatus(pct, budget - totalCost, BarColorOf(pct))
  }

  /** The bar colour in whole numbers: alert once costs pass 9/10 of a
      positive budget, warning once they pass 3/4, and never anything but
      normal without a positive budget. */
  lemma BarColorByAmounts(budget: int, totalCost: int)
    ensures var c := BudgetStatusOf(budget, totalCost).color;
      && (budget <= 0 ==> c == CompletedColor)
      && (budget > 0 ==>
            && (c == AlertColor <==> 10 * totalCost > 9 * budget)
            && (c == ProgressColor <==> 4 * totalCost > 3 * budget && 10 * totalCost <= 9 * budget)
            && (c == CompletedColor <==> 4 * totalCost <= 3 * budget))
  {
    if budget > 0 {
      PercentAbove(budget, totalCost, 90);
      PercentAbove(budget, totalCost, 75);
    }
  }

  /** For a positive budget, the percentage passes `threshold` exactly when
      100 times the cost passes `threshold` times the budget. */
  lemma PercentAbove(budget: int, totalCost: int, threshold: nat)
    requires budget > 0
    ensures BudgetPercentage(totalCost, budget) > threshold as real <==> 100 * totalCost > threshold * budget
  {
    var pct := BudgetPercentage(totalCost, budget);
    var b, th := budget as real, threshold as real;
    assert pct * b == (100 * totalCost) as real;
    assert (threshold * budget) as real == th * b;
    if pct > th {
      assert pct * b > th * b;
    } else {
      assert pct * b <= th * b;
    }
  }

  /** Everything the `useMemo` derives from the financial data. */
  method CostSummary(fd: FinancialData, dateKey: string -> int)
    returns (dailyCostsTotal: int, totalCost: int, trend: seq<TrendPoint>, status: BudgetStatus)
    ensures dailyCostsTotal == SumAmounts(fd.costEntries) && totalCost == TotalCost(fd)
    ensures status == BudgetStatusOf(fd.budget, totalCost)
    ensures |trend| == |fd.costEntries|
    ensures forall i :: 0 <= i < |trend| ==>
      trend[i].cost == fd.materials + fd.labor + SumAmounts(SortByDate(fd.costEntries, dateKey)[..i + 1])
    ensures |trend| > 0 ==> trend[|trend| - 1].cost == totalCost
  {
    dailyCostsTotal := SumAmounts(fd.costEntries);
    totalCost := fd.materials + fd.labor + dailyCostsTotal;
    var sorted := SortByDate(fd.costEntries, dateKey);
    trend := CostTrend(fd.materials + fd.labor, sorted);
    if |trend| > 0 {
      TrendEndsAtTotal(fd, sorted);
    }
    status := BudgetStatusOf(fd.budget, totalCost);
  }

  // ------------------------------------------------------- the entry form

  /** The fields of the "new cost" form. */
  class CostForm {
    var date: string
    var description: string
    var amount: string
    var category: CostCategory

    constructor()
      ensures date == "" && description == "" && amount == "" && category == Other
    {
      date, description, amount, category := "", "", "", Other;
    }

    /** `handleAddEntry`: with a date, a description and an amount that parses
        to a positive number, emit the entry and clear the form (category back
        to "Outros"); otherwise emit nothing and keep the form. */
    method Submit(parseAmount: string -> Option<int>) returns (added: Option<NewCostEntry>)
      modifies this
      ensures var parsed := parseAmount(old(amount));
        var ok := old(date) != "" && old(description) != "" && parsed.Some? && parsed.value > 0;
        && (ok ==> added == Some(NewCostEntry(old(date), old(description), parsed.value, old(category)))
                   && date == "" && description == "" && amount == "" && category == Other)
        && (!ok ==> added == None && unchanged(this))
      ensures added.Some? ==> added.value.amount > 0
    {
      var numAmount := parseAmount(amount);
      if date != "" && description != "" && numAmount.Some? && numAmount.value > 0 {
        added := Some(NewCostEntry(date, description, numAmount.value, category));
        date, description, amount, category := "", "", "", Other;
      } else {
        added := None;
      }
    }
  }

  // ------------------------------------------------------------ the report

  /** `const [year, month, day] = date.split('-')` and then `${day}/${month}/${year}`;
      a missing part prints as "undefined", extra parts are ignored. */
  function FormatDate(date: string): (r: string)
  {
    var parts := Split(date, '-');
    var year := parts[0];
    var month := if |parts| > 1 then parts[1] else "undefined";
    var day := if |parts| > 2 then parts[2] else "undefined";
    day + "/" + month + "/" + year
  }

  /** An ISO date `Y-M-D` becomes `D/M/Y`. */
  lemma FormatIsoDate(y: string, m: string, d: string)
    requires '-' !in y && '-' !in m && '-' !in d
    ensures FormatDate(y + "-" + m + "-" + d) == d + "/" + m + "/" + y
  {
    assert Join([y, m, d], '-') == y + "-" + m + "-" + d by {
      assert Join([m, d], '-') == m + "-" + d by { assert [m, d][1..] == [d]; }
      assert [y, m, d][1..] == [m, d];
    }
    SplitJoin([y, m, d], '-');
  }

  /** `description.replace(/"/g, '""')`. */
  function EscapeQuotes(s: string): (r: string)
    ensures |r| >= |s|
  {
    if |s| == 0 then ""
    else (if s[0] == '"' then "\"\"" else [s[0]]) + EscapeQuotes(s[1..])
  }

  /** The description field: quoted, embedded quotes doubled (section 2, rule
      7 of RFC 4180). */
  function QuoteField(s: string): (r: string)
    ensures |r| >= 2 && r[0] == '"' && r[|r| - 1] == '"'
  {
    "\"" + EscapeQuotes(s) + "\""
  }

  /** Reading the inside of a quoted field: a doubled quote stands for one
      quote; a lone quote is malformed. */
  function Unescape(inner: string): Option<string>
  {
    if |inner| == 0 then Some("")
    else if inner[0] == '"' then
      if |inner| >= 2 && inner[1] == '"' then
        match Unescape(inner[2..]) case Some(rest) => Some("\"" + rest) case None => None
      else None
    else match Unescape(inner[1..]) case Some(rest) => Some([inner[0]] + rest) case None => None
  }

  /** A reader's view of a quoted field. */
  function UnquoteField(q: string): Option<string>
  {
    if |q| >= 2 && q[0] == '"' && q[|q| - 1] == '"' then Unescape(q[1..|q| - 1]) else None
  }

  lemma {:induction false} UnescapeEscape(s: string)
    ensures Unescape(EscapeQuotes(s)) == Some(s)
  {
    if |s| > 0 {
      UnescapeEscape(s[1..]);
      var e := EscapeQuotes(s);
      if s[0] == '"' {
        assert e[2..] == EscapeQuotes(s[1..]);
      } else {
        assert e[1..] == EscapeQuotes(s[1..]);
      }
      assert s == [s[0]] + s[1..];
    }
  }

  /** A reader that undoes the quoting recovers the description exactly. */
  lemma QuoteRoundTrip(s: string)
    ensures UnquoteField(QuoteField(s)) == Some(s)
  {
    var q := QuoteField(s);
    assert q[1..|q| - 1] == EscapeQuotes(s);
    UnescapeEscape(s);
  }

  function TwoDigits(n: nat): (s: string)
    requires n < 100
    ensures |s| == 2 && AllDigits(s) && DecimalValue(s) == n
  {
    var s := [DigitChar(n / 10), DigitChar(n % 10)];
    assert DecimalValue(s[..1]) == n / 10 by {
      assert s[..1][..0] == [];
    }
    s
  }

  /** `amount.toFixed(2).replace('.', ',')` on an amount of `cents` cents. */
  function FormatAmount(cents: int): (r: string)
    decreases if cents < 0 then 1 else 0
  {
    if cents < 0 then "-" + FormatAmount(-cents)
    else NatToDecimal(cents / 100) + "," + TwoDigits(cents % 100)
  }

  /** Reading a formatted amount: optional '-', digits, ',' and two digits. */
  function ParseAmount(s: string): Option<int>
  {
    if |s| > 0 && s[0] == '-' then
      match ParseUnsigned(s[1..]) case Some(v) => Some(-v) case None => None
    else ParseUnsigned(s)
  }

  function ParseUnsigned(s: string): Option<int>
  {
    UnsignedFromParts(Split(s, ','))
  }

  /** The amount the comma-separated pieces denote: digits, then two decimals. */
  function UnsignedFromParts(parts: seq<string>): Option<int>
  {
    if |parts| == 2 && |parts[0]| >= 1 && AllDigits(parts[0]) && |parts[1]| == 2 && AllDigits(parts[1]) then
      Some(DecimalValue(parts[0]) * 100 + DecimalValue(parts[1]))
    else None
  }

  /** A string of digits holds no character that is not a digit. */
  lemma DigitsExclude(s: string, c: char)
    requires AllDigits(s) && !IsDigit(c)
    ensures c !in s
  {
    forall k | 0 <= k < |s| ensures s[k] != c {
      assert IsDigit(s[k]);
    }
  }

  /** Cutting `whole,frac` at the comma gives the two halves back. */
  lemma SplitAtComma(whole: string, frac: string)
    requires ',' !in whole && ',' !in frac
    ensures Split(whole + "," + frac, ',') == [whole, frac]
  {
    assert Join([whole, frac], ',') == whole + "," + frac by { assert [whole, frac][1..] == [frac]; }
    SplitJoin([whole, frac], ',');
  }

  /** Reading `whole,frac` with a non-empty whole part and two decimals. */
  lemma ParseParts(whole: string, frac: string)
    requires |whole| >= 1 && AllDigits(whole) && |frac| == 2 && AllDigits(frac)
    ensures ParseUnsigned(whole + "," + frac) == Some(DecimalValue(whole) * 100 + DecimalValue(frac))
  {
    DigitsExclude(whole, ',');
    DigitsExclude(frac, ',');
    SplitAtComma(whole, frac);
    PartsValue(whole, frac);
  }

  /** The two well-formed pieces denote digits, times a hundred, plus decimals. */
  lemma PartsValue(whole: string, frac: string)
    requires |whole| >= 1 && AllDigits(whole) && |frac| == 2 && AllDigits(frac)
    ensures UnsignedFromParts([whole, frac]) == Some(DecimalValue(whole) * 100 + DecimalValue(frac))
  {
    var parts := [whole, frac];
    assert |parts| == 2 && parts[0] == whole && parts[1] == frac;
  }

  /** A non-negative formatted amount reads back as itself. */
  lemma UnsignedRoundTrip(cents: nat)
    ensures ParseUnsigned(FormatAmount(cents)) == Some(cents)
  {
    var whole, frac := NatToDecimal(cents / 100), TwoDigits(cents % 100);
    FormatNonNegative(cents);
    ParseParts(whole, frac);
    PiecesValue(cents);
  }

  /** A non-negative amount is written as its whole part, a comma and two decimals. */
  lemma FormatNonNegative(cents: nat)
    ensures FormatAmount(cents) == NatToDecimal(cents / 100) + "," + TwoDigits(cents % 100)
    ensures |FormatAmount(cents)| > 0 && FormatAmount(cents)[0] != '-'
  {
    assert IsDigit(NatToDecimal(cents / 100)[0]);
  }

  /** A negative amount is written as '-' and then its magnitude. */
  lemma FormatNegative(cents: int)
    requires cents < 0
    ensures |FormatAmount(cents)| > 0 && FormatAmount(cents)[0] == '-'
    ensures FormatAmount(cents)[1..] == FormatAmount(-cents)
  {
  }

  /** The two pieces of a formatted amount denote the amount again. */
  lemma PiecesValue(cents: nat)
    ensures DecimalValue(NatToDecimal(cents / 100)) * 100 + DecimalValue(TwoDigits(cents % 100)) == cents
  {
    DecimalRoundTrip(cents / 100);
  }

  /** The formatted amount reads back as the amount. */
  lemma AmountRoundTrip(cents: int)
    ensures ParseAmount(FormatAmount(cents)) == Some(cents)
  {
    var f := FormatAmount(cents);
    if cents < 0 {
      FormatNegative(cents);
      UnsignedRoundTrip(-cents);
      assert ParseUnsigned(f[1..]) == Some(-cents);
    } else {
      FormatNonNegative(cents);
      UnsignedRoundTrip(cents);
      assert ParseUnsigned(f) == Some(cents);
    }
  }

  const CsvHeader: string := "Data;Descrição;Valor;Categoria"

  /** One report line: date, quoted description, amount and category label. */
  function CsvFields(e: CostEntry): (fields: seq<string>)
    ensures |fields| == 4
  {
    [FormatDate(e.date), QuoteField(e.description), FormatAmount(e.amount), CostCategoryLabel(e.category)]
  }

  function CsvRow(e: CostEntry): string
  {
    Join(CsvFields(e), ';')
  }

  function CsvRows(entries: seq<CostEntry>): (rows: seq<string>)
    ensures |rows| == |entries| && forall i :: 0 <= i < |entries| ==> rows[i] == CsvRow(entries[i])
  {
    seq(|entries|, i requires 0 <= i < |entries| => CsvRow(entries[i]))
  }

  /** `handleExportCSV`: nothing without entries; otherwise the header line
      and one line per entry, in ledger order, separated by newlines. */
  function ExportCsv(entries: seq<CostEntry>): (csv: Option<string>)
    ensures csv.None? <==> |entries| == 0
  {
    if |entries| == 0 then None else Some(Join([CsvHeader] + CsvRows(entries), '\n'))
  }

  predicate NoNewline(s: string) { '\n' !in s }

  lemma {:induction false} EscapeKeepsAbsence(s: string, c: char)
    requires c !in s && c != '"'
    ensures c !in EscapeQuotes(s)
  {
    if |s| > 0 {
      assert s == [s[0]] + s[1..];
      EscapeKeepsAbsence(s[1..], c);
    }
  }

  lemma {:induction false} JoinKeepsAbsence(parts: seq<string>, sep: char, c: char)
    requires c != sep && forall i :: 0 <= i < |parts| ==> c !in parts[i]
    ensures c !in Join(parts, sep)
  {
    if |parts| > 1 {
      JoinKeepsAbsence(parts[1..], sep, c);
    }
  }

  /** A row holds no line break when its date and description hold none. */
  lemma RowHasNoNewline(e: CostEntry)
    requires NoNewline(e.date) && NoNewline(e.description)
    ensures NoNewline(CsvRow(e))
  {
    var fields := CsvFields(e);
    DateHasNoNewline(e.date);
    EscapeKeepsAbsence(e.description, '\n');
    assert NoNewline(fields[1]);
    AmountHasNoNewline(e.amount);
    assert NoNewline(fields[3]) by {
      match e.category
      case Transportation => case Tools => case Permits => case Other =>
    }
    assert forall i :: 0 <= i < |fields| ==> NoNewline(fields[i]) by {
      forall i | 0 <= i < |fields| ensures NoNewline(fields[i]) {
        assert i == 0 || i == 1 || i == 2 || i == 3;
      }
    }
    JoinKeepsAbsence(fields, ';', '\n');
  }

  /** The written date holds a line break only if the stored one does. */
  lemma DateHasNoNewline(date: string)
    requires NoNewline(date)
    ensures NoNewline(FormatDate(date))
  {
    SplitKeepsAbsence(date, '-', '\n');
  }

  /** A formatted amount is a sign, digits and a comma: no line break. */
  lemma AmountHasNoNewline(cents: int)
    ensures NoNewline(FormatAmount(cents))
    decreases if cents < 0 then 1 else 0
  {
    if cents < 0 {
      AmountHasNoNewline(-cents);
    } else {
      DigitsExclude(NatToDecimal(cents / 100), '\n');
      DigitsExclude(TwoDigits(cents % 100), '\n');
    }
  }

  /** Cutting the report at line breaks gives the header and then exactly one
      line per entry, in ledger order, as long as no date or description
      itself holds a line break. */
  lemma CsvLines(entries: seq<CostEntry>)
    requires |entries| > 0
    requires forall i :: 0 <= i < |entries| ==> NoNewline(entries[i].date) && NoNewline(entries[i].description)
    ensures Split(ExportCsv(entries).value, '\n') == [CsvHeader] + CsvRows(entries)
  {
    var rows := CsvRows(entries);
    var lines := [CsvHeader] + rows;
    RowsHaveNoNewline(entries);
    HeaderHasNoNewline();
    forall i | 0 <= i < |lines| ensures '\n' !in lines[i] {
      if i > 0 {
        assert lines[i] == rows[i - 1];
      }
    }
    SplitJoin(lines, '\n');
  }

  lemma HeaderHasNoNewline()
    ensures NoNewline(CsvHeader)
  {
    forall k | 0 <= k < |CsvHeader| ensures CsvHeader[k] != '\n' {
    }
  }

  /** No report row holds a line break when no date or description does. */
  lemma RowsHaveNoNewline(entries: seq<CostEntry>)
    requires forall i :: 0 <= i < |entries| ==> NoNewline(entries[i].date) && NoNewline(entries[i].description)
    ensures forall i :: 0 <= i < |entries| ==> NoNewline(CsvRows(entries)[i])
  {
    forall i | 0 <= i < |entries| ensures NoNewline(CsvRows(entries)[i]) {
      RowHasNoNewline(entries[i]);
    }
  }
}
