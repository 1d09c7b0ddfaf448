/** The held-out report: the episode-identity check, the paired pass-rate delta and its
    stratified bootstrap, in exact reals. */
module HeldoutDesign {
  import opened Samples
  import opened Text

  datatype Row = Row(task: string, catalog: int, condition: string, passed: bool)

  datatype TaskMeta = TaskMeta(id: string, stratum: string, language: string)

  datatype Corpus = Corpus(tasks: seq<TaskMeta>, conditions: seq<string>)

  /** An episode's identity: task, catalog size, condition. */
  type Key = (string, int, string)

  predicate IsCatalog(c: int) {
    c == 100 || c == 250 || c == 500
  }

  // ---- The identity check ---------------------------------------------------------------

  function KeyOf(row: Row): Key {
    (row.task, row.catalog, row.condition)
  }

  function Keys(rows: seq<Row>): (r: seq<Key>)
    ensures |r| == |rows|
  {
    if rows == [] then [] else Keys(rows[..|rows| - 1]) + [KeyOf(rows[|rows| - 1])]
  }

  function TaskIds(corpus: Corpus): set<string> {
    set m | m in corpus.tasks :: m.id
  }

  function Expected(corpus: Corpus): set<Key> {
    set t, c, d | t in TaskIds(corpus) && c in {100, 250, 500} && d in corpus.conditions :: (t, c, d)
  }

  /** The check `aggregate` makes before it reports anything. */
  predicate IdentityOk(corpus: Corpus, rows: seq<Row>) {
    Elements(Keys(rows)) == Expected(corpus) && |rows| == |Expected(corpus)|
  }

  lemma ElementsBelow<T>(xs: seq<T>)
    ensures multiset(Elements(xs)) <= multiset(xs)
    ensures |Elements(xs)| == |xs| <==> multiset(Elements(xs)) == multiset(xs)
  {
    forall x
      ensures multiset(Elements(xs))[x] <= multiset(xs)[x]
    {
      assert x in Elements(xs) ==> x in multiset(xs);
    }
    assert |multiset(xs)| == |xs| && |multiset(Elements(xs))| == |Elements(xs)|;
    var rest := multiset(xs) - multiset(Elements(xs));
    assert multiset(xs) == multiset(Elements(xs)) + rest;
    assert |rest| == 0 ==> rest == multiset{};
  }

  /** Equal key sets and equal counts hold exactly when every planned episode occurs
      once and no other episode occurs. */
  lemma IdentityMeansBalanced(corpus: Corpus, rows: seq<Row>)
    ensures IdentityOk(corpus, rows) <==> multiset(Keys(rows)) == multiset(Expected(corpus))
  {
    var keys, expected := Keys(rows), Expected(corpus);
    ElementsBelow(keys);
    assert |multiset(keys)| == |keys| && |multiset(expected)| == |expected|;
    if multiset(keys) == multiset(expected) {
      forall k
        ensures k in Elements(keys) <==> k in expected
      {
        assert k in keys <==> k in multiset(keys);
        assert k in expected <==> k in multiset(expected);
      }
      assert Elements(keys) == expected;
    }
  }

  // ---- Rows of a condition, rows of a task ---------------------------------------------------

  function OfCondition(rows: seq<Row>, condition: string): seq<Row> {
    if rows == [] then []
    else
      var init, last := OfCondition(rows[..|rows| - 1], condition), rows[|rows| - 1];
      if last.condition == condition then init + [last] else init
  }

  function OfTask(rows: seq<Row>, task: string): seq<Row> {
    if rows == [] then []
    else
      var init, last := OfTask(rows[..|rows| - 1], task), rows[|rows| - 1];
      if last.task == task then init + [last] else init
  }

  function PassValue(row: Row): real {
    if row.passed then 1.0 else 0.0
  }

  function PassValues(rows: seq<Row>): (r: seq<real>)
    ensures |r| == |rows|
  {
    if rows == [] then [] else PassValues(rows[..|rows| - 1]) + [PassValue(rows[|rows| - 1])]
  }

  /** The `task_pass_rate` of `summarize_rows`. */
  function PassRate(rows: seq<Row>): real
    requires rows != []
  {
    Mean(PassValues(rows))
  }

  lemma {:induction false} CountByCatalog(rows: seq<Row>, task: string, condition: string)
    requires forall row | row in rows :: IsCatalog(row.catalog)
    ensures var m := multiset(Keys(rows));
      |OfTask(OfCondition(rows, condition), task)|
      == m[(task, 100, condition)] + m[(task, 250, condition)] + m[(task, 500, condition)]
  {
    if rows != [] {
      var init, last := rows[..|rows| - 1], rows[|rows| - 1];
      CountByCatalog(init, task, condition);
      assert IsCatalog(last.catalog);
      assert multiset(Keys(rows)) == multiset(Keys(init)) + multiset{KeyOf(last)};
      if last.condition == condition {
        var kept := OfCondition(init, condition);
        assert (kept + [last])[..|kept|] == kept;
      }
    }
  }

  /** A balanced design: every planned task has exactly three episodes per condition, and
      no other task has any. */
  lemma ThreePerTask(corpus: Corpus, rows: seq<Row>, condition: string, task: string)
    requires IdentityOk(corpus, rows) && condition in corpus.conditions
    ensures |OfTask(OfCondition(rows, condition), task)| == if task in TaskIds(corpus) then 3 else 0
  {
    IdentityMeansBalanced(corpus, rows);
    RowsArePlanned(corpus, rows);
    CountByCatalog(rows, task, condition);
    var expected := Expected(corpus);
    assert (task, 100, condition) in expected <==> task in TaskIds(corpus);
    assert (task, 250, condition) in expected <==> task in TaskIds(corpus);
    assert (task, 500, condition) in expected <==> task in TaskIds(corpus);
  }

  lemma {:induction false} KeysHold(rows: seq<Row>, row: Row)
    requires row in rows
    ensures KeyOf(row) in Keys(rows)
  {
    if row != rows[|rows| - 1] {
      assert row in rows[..|rows| - 1];
      KeysHold(rows[..|rows| - 1], row);
    }
  }

  lemma RowsArePlanned(corpus: Corpus, rows: seq<Row>)
    requires IdentityOk(corpus, rows)
    ensures forall row | row in rows :: IsCatalog(row.catalog) && row.task in TaskIds(corpus)
  {
    forall row | row in rows
      ensures IsCatalog(row.catalog) && row.task in TaskIds(corpus)
    {
      KeysHold(rows, row);
      assert KeyOf(row) in Expected(corpus);
    }
  }

  // ---- Task values ---------------------------------------------------------------------------

  function TasksOf(rows: seq<Row>): (r: seq<string>)
    ensures |r| == |rows|
  {
    if rows == [] then [] else TasksOf(rows[..|rows| - 1]) + [rows[|rows| - 1].task]
  }

  lemma {:induction false} TaskHasRows(rows: seq<Row>, task: string)
    ensures task in TasksOf(rows) <==> OfTask(rows, task) != []
  {
    if rows != [] {
      TaskHasRows(rows[..|rows| - 1], task);
    }
  }

  /** The mean pass value of each task that occurs. */
  ghost predicate AreTaskValues(rows: seq<Row>, values: map<string, real>) {
    && (forall t :: t in values <==> t in TasksOf(rows))
    && forall t | t in values && OfTask(rows, t) != [] :: values[t] == PassRate(OfTask(rows, t))
  }

  /** The pass values seen so far, by task. */
  ghost predicate Grouped(rows: seq<Row>, grouped: map<string, seq<real>>) {
    && (forall t :: t in grouped <==> OfTask(rows, t) != [])
    && forall t | t in grouped :: grouped[t] == PassValues(OfTask(rows, t))
  }

  method TaskValues(rows: seq<Row>) returns (values: map<string, real>)
    ensures AreTaskValues(rows, values)
  {
    var grouped: map<string, seq<real>> := map[];
    for i := 0 to |rows|
      invariant Grouped(rows[..i], grouped)
    {
      var row := rows[i];
      GroupedStep(rows[..i], row, grouped);
      assert rows[..i + 1] == rows[..i] + [row];
      hide Grouped;
      var before := if row.task in grouped then grouped[row.task] else [];
      grouped := grouped[row.task := before + [PassValue(row)]];
    }
    assert rows[..|rows|] == rows;
    forall t
      ensures t in TasksOf(rows) <==> t in grouped
    {
      TaskHasRows(rows, t);
    }
    values := map t | t in grouped :: Mean(grouped[t]);
  }

  lemma GroupedStep(rows: seq<Row>, row: Row, grouped: map<string, seq<real>>)
    requires Grouped(rows, grouped)
    ensures var before := if row.task in grouped then grouped[row.task] else [];
      Grouped(rows + [row], grouped[row.task := before + [PassValue(row)]])
  {
    GroupStep(rows, row);
    hide OfTask;
  }

  lemma GroupStep(rows: seq<Row>, row: Row)
    ensures TasksOf(rows + [row]) == TasksOf(rows) + [row.task]
    ensures forall t :: OfTask(rows + [row], t) == if t == row.task then OfTask(rows, t) + [row] else OfTask(rows, t)
    ensures PassValues(OfTask(rows, row.task) + [row]) == PassValues(OfTask(rows, row.task)) + [PassValue(row)]
  {
    assert (rows + [row])[..|rows|] == rows;
    var kept := OfTask(rows, row.task);
    assert (kept + [row])[..|kept|] == kept;
  }

  // ---- Totals by task ------------------------------------------------------------------------

  predicate Distinct(ids: seq<string>) {
    forall i, j | 0 <= i < j < |ids| :: ids[i] != ids[j]
  }

  function Totals(rows: seq<Row>, ids: seq<string>): real {
    if ids == [] then 0.0
    else Totals(rows, ids[..|ids| - 1]) + Sum(PassValues(OfTask(rows, ids[|ids| - 1])))
  }

  function Counts(rows: seq<Row>, ids: seq<string>): nat {
    if ids == [] then 0
    else Counts(rows, ids[..|ids| - 1]) + |OfTask(rows, ids[|ids| - 1])|
  }

  lemma {:induction false} TotalsStep(rows: seq<Row>, row: Row, ids: seq<string>)
    requires Distinct(ids)
    ensures Totals(rows + [row], ids) == Totals(rows, ids) + (if row.task in ids then PassValue(row) else 0.0)
    ensures Counts(rows + [row], ids) == Counts(rows, ids) + (if row.task in ids then 1 else 0)
  {
    if ids != [] {
      var init, last := ids[..|ids| - 1], ids[|ids| - 1];
      TotalsStep(rows, row, init);
      GroupStep(rows, row);
      SumSnoc(PassValues(OfTask(rows, last)), PassValue(row));
      assert row.task in ids <==> row.task in init || row.task == last;
      assert last !in init;
    }
  }

  lemma SumSnoc(xs: seq<real>, x: real)
    ensures Sum(xs + [x]) == Sum(xs) + x
  {
    assert (xs + [x])[..|xs|] == xs;
  }

  /** Grouping by task loses and duplicates nothing. */
  lemma {:induction false} TotalsConserve(rows: seq<Row>, ids: seq<string>)
    requires Distinct(ids) && forall row | row in rows :: row.task in ids
    ensures Totals(rows, ids) == Sum(PassValues(rows)) && Counts(rows, ids) == |rows|
  {
    if rows == [] {
      NoTotals(ids);
    } else {
      var init, last := rows[..|rows| - 1], rows[|rows| - 1];
      TotalsConserve(init, ids);
      assert rows == init + [last];
      TotalsStep(init, last, ids);
    }
  }

  lemma {:induction false} NoTotals(ids: seq<string>)
    ensures Totals([], ids) == 0.0 && Counts([], ids) == 0
  {
    if ids != [] {
      NoTotals(ids[..|ids| - 1]);
    }
  }

  lemma {:induction false} CountsOfSize(rows: seq<Row>, ids: seq<string>, size: nat)
    requires forall t | t in ids :: |OfTask(rows, t)| == size
    ensures Counts(rows, ids) == size * |ids|
  {
    if ids != [] {
      CountsOfSize(rows, ids[..|ids| - 1], size);
      assert size * |ids| == size * (|ids| - 1) + size;
    }
  }

  lemma MeanTimes(xs: seq<real>, size: nat, mean: real)
    requires xs != [] && |xs| == size && mean == Mean(xs)
    ensures Sum(xs) == size as real * mean
  {
    hide Sum;
    Quotient(Sum(xs), size as real);
  }

  lemma Quotient(total: real, n: real)
    requires n > 0.0
    ensures n * (total / n) == total
  {
  }

  lemma TaskTotal(rows: seq<Row>, task: string, values: map<string, real>, size: nat)
    requires size > 0 && AreTaskValues(rows, values) && task in values && |OfTask(rows, task)| == size
    ensures Sum(PassValues(OfTask(rows, task))) == size as real * values[task]
  {
    hide Sum, Mean, OfTask, PassValues;
    MeanTimes(PassValues(OfTask(rows, task)), size, values[task]);
  }

  /** With the same number of rows in every group, totals are that number times the means. */
  lemma {:induction false} TotalsOfMeans(rows: seq<Row>, ids: seq<string>, values: map<string, real>, size: nat)
    requires size > 0 && AreTaskValues(rows, values)
    requires forall t | t in ids :: t in values && |OfTask(rows, t)| == size
    ensures Totals(rows, ids) == size as real * Sum(Listed(ids, values))
  {
    hide AreTaskValues, Sum, OfTask, PassValues;
    if ids == [] {
      assert Listed(ids, values) == [];
      SumEmpty();
    } else {
      var init, last := ids[..|ids| - 1], ids[|ids| - 1];
      TotalsOfMeans(rows, init, values, size);
      SumSnoc(Listed(init, values), values[last]);
      TaskTotal(rows, last, values, size);
      Distribute(size as real, Sum(Listed(init, values)), values[last]);
    }
  }

  lemma SumEmpty()
    ensures Sum([]) == 0.0
  {
  }

  lemma Distribute(a: real, x: real, y: real)
    ensures a * (x + y) == a * x + a * y
  {
  }

  function Listed(ids: seq<string>, values: map<string, real>): (r: seq<real>)
    ensures |r| == |ids|
  {
    if ids == [] then []
    else
      var last := ids[|ids| - 1];
      Listed(ids[..|ids| - 1], values) + [if last in values then values[last] else 0.0]
  }
}
