/**
 * The training back end's model selection: every candidate estimator is tuned by
 * a grid search and scored on the test split, the report is sorted by score with
 * Python's stable `sorted(..., reverse=True)`, and the head of the sorted report
 * is the choice.  The grid search itself is a parameter.
 */
module ModelSelection {

  /** One entry of `models`: a name, an estimator and its parameter grid. */
  datatype Candidate<M, G> = Candidate(name: string, model: M, grid: G)

  /** What tuning and scoring one candidate gives: its best parameters and test accuracy, or an exception. */
  datatype Search<P> = Searched(bestParams: P, testScore: real) | SearchFailed

  /** One report entry: the untouched estimator, the best parameters found, the test score. */
  datatype Entry<M, P> = Entry(model: M, params: P, score: real)

  /** The returned triple. */
  datatype Choice<M, P> = Choice(model: M, score: real, params: P)

  /** A value, or the `CustomException` the function raises. */
  datatype Result<T> = Ok(value: T) | Failure

  function SearchOf<M, G, P>(c: Candidate<M, G>, search: (M, G) -> Search<P>): Search<P>
  {
    search(c.model, c.grid)
  }

  /** `sorted(report, key=score, reverse=True)`: each earlier entry is inserted before the first entry it is not below. */
  function SortDesc<M, P>(report: seq<Entry<M, P>>): (sorted: seq<Entry<M, P>>)
    ensures |sorted| == |report|
  {
    if report == [] then [] else Insert(report[0], SortDesc(report[1..]))
  }

  /** Puts `x` before the first entry whose score does not exceed its own. */
  function Insert<M, P>(x: Entry<M, P>, sorted: seq<Entry<M, P>>): (r: seq<Entry<M, P>>)
    ensures |r| == |sorted| + 1
    ensures r[0] == if sorted == [] || x.score >= sorted[0].score then x else sorted[0]
  {
    if sorted == [] || x.score >= sorted[0].score then [x] + sorted
    else [sorted[0]] + Insert(x, sorted[1..])
  }

  predicate Descending<M, P>(s: seq<Entry<M, P>>)
  {
    forall i, j :: 0 <= i < j < |s| ==> s[i].score >= s[j].score
  }

  lemma {:induction false} InsertDescending<M, P>(x: Entry<M, P>, sorted: seq<Entry<M, P>>)
    requires Descending(sorted)
    ensures Descending(Insert(x, sorted))
  {
    if sorted != [] && x.score < sorted[0].score {
      InsertDescending(x, sorted[1..]);
    }
  }

  /** The sorted report is ordered by score, highest first. */
  lemma {:induction false} SortDescending<M, P>(report: seq<Entry<M, P>>)
    ensures Descending(SortDesc(report))
  {
    if report != [] {
      SortDescending(report[1..]);
      InsertDescending(report[0], SortDesc(report[1..]));
    }
  }

  lemma {:induction false} InsertPermutes<M, P>(x: Entry<M, P>, sorted: seq<Entry<M, P>>)
    ensures multiset(Insert(x, sorted)) == multiset{x} + multiset(sorted)
  {
    if sorted != [] && x.score < sorted[0].score {
      InsertPermutes(x, sorted[1..]);
      assert sorted == [sorted[0]] + sorted[1..];
    }
  }

  /** The sorted report holds exactly the entries of the report. */
  lemma {:induction false} SortPermutes<M, P>(report: seq<Entry<M, P>>)
    ensures multiset(SortDesc(report)) == multiset(report)
  {
    if report != [] {
      SortPermutes(report[1..]);
      InsertPermutes(report[0], SortDesc(report[1..]));
      assert report == [report[0]] + report[1..];
    }
  }

  /**
   * The head of the sorted report is the first entry of the report with the top
   * score: no entry scores higher, and every earlier entry scores lower.
   */
  lemma {:induction false} HeadIsFirstBest<M, P>(report: seq<Entry<M, P>>)
    requires |report| > 0
    ensures exists k :: (0 <= k < |report| && SortDesc(report)[0] == report[k]
                         && (forall i :: 0 <= i < |report| ==> report[i].score <= report[k].score)
                         && (forall i :: 0 <= i < k ==> report[i].score < report[k].score))
  {
    if |report| == 1 {
      assert SortDesc(report)[0] == report[0];
    } else {
      var rest := report[1..];
      HeadIsFirstBest(rest);
      var k' :| 0 <= k' < |rest| && SortDesc(rest)[0] == rest[k']
        && (forall i :: 0 <= i < |rest| ==> rest[i].score <= rest[k'].score)
        && (forall i :: 0 <= i < k' ==> rest[i].score < rest[k'].score);
      if report[0].score >= rest[k'].score {
        assert SortDesc(report)[0] == report[0];
        forall i | 0 <= i < |report| ensures report[i].score <= report[0].score {
          if i > 0 {
            assert report[i] == rest[i - 1];
          }
        }
      } else {
        var k := k' + 1;
        assert SortDesc(report)[0] == report[k];
        forall i | 0 <= i < |report| ensures report[i].score <= report[k].score {
          if i > 0 {
            assert report[i] == rest[i - 1];
          }
        }
        forall i | 0 <= i < k ensures report[i].score < report[k].score {
          if i > 0 {
            assert report[i] == rest[i - 1];
          }
        }
      }
    }
  }

  /**
   * The report loop: one entry per candidate, in input order, holding the
   * candidate's own estimator with its search result; the first failed search
   * aborts the whole selection.
   */
  method BuildReport<M, G, P>(models: seq<Candidate<M, G>>, search: (M, G) -> Search<P>)
    returns (report: Result<seq<Entry<M, P>>>)
    ensures report.Failure? <==> exists i :: 0 <= i < |models| && SearchOf(models[i], search).SearchFailed?
    ensures report.Ok? ==> |report.value| == |models| && forall i :: 0 <= i < |models| ==>
              report.value[i] == Entry(models[i].model, SearchOf(models[i], search).bestParams,
                                       SearchOf(models[i], search).testScore)
  {
    var entries: seq<Entry<M, P>> := [];
    var i := 0;
    while i < |models|
      invariant 0 <= i <= |models|
      invariant |entries| == i
      invariant forall j :: 0 <= j < i ==> SearchOf(models[j], search).Searched?
      invariant forall j :: 0 <= j < i ==>
                  entries[j] == Entry(models[j].model, SearchOf(models[j], search).bestParams,
                                      SearchOf(models[j], search).testScore)
    {
      var result := search(models[i].model, models[i].grid);
      if result.SearchFailed? {
        return Failure;
      }
      entries := entries + [Entry(models[i].model, result.bestParams, result.testScore)];
      i := i + 1;
    }
    return Ok(entries);
  }

  /**
   * `select_best_model`: fails when there is no candidate (`report[0]`) or a search
   * fails; otherwise returns, from one and the same report entry, the estimator,
   * score and parameters of the earliest candidate with the highest test score.
   */
  method SelectBestModel<M, G, P>(models: seq<Candidate<M, G>>, search: (M, G) -> Search<P>)
    returns (r: Result<Choice<M, P>>)
    ensures r.Failure? <==>
              |models| == 0 || exists i :: 0 <= i < |models| && SearchOf(models[i], search).SearchFailed?
    ensures r.Ok? ==> exists k :: (
              && 0 <= k < |models|
              && SearchOf(models[k], search).Searched?
              && r.value == Choice(models[k].model, SearchOf(models[k], search).testScore,
                                   SearchOf(models[k], search).bestParams)
              && (forall i :: 0 <= i < |models| ==> SearchOf(models[i], search).testScore <= r.value.score)
              && (forall i :: 0 <= i < k ==> SearchOf(models[i], search).testScore < r.value.score))
  {
    var report := BuildReport(models, search);
    if report.Failure? {
      return Failure;
    }
    var sorted := SortDesc(report.value);
    if |sorted| == 0 {
      return Failure;
    }
    HeadIsFirstBest(report.value);
    var best := sorted[0];
    r := Ok(Choice(best.model, best.score, best.params));
  }

  /** The trainer's acceptance threshold: a best score below 0.6 raises "No best model found". */
  function Accept<M, P>(best: Choice<M, P>): (r: Result<Choice<M, P>>)
    ensures r.Failure? <==> best.score < 0.6
    ensures r.Ok? ==> r.value == best
  {
    if best.score < 0.6 then Failure else Ok(best)
  }
}
