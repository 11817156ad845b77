/**
 The byte counts of a direct pull.  The node reports total and completed bytes per
 layer; the running sums are adjusted line by line.
 */
module PullProgress {
  import opened Options
  import opened Sums
  import PullJobs

  type Digest = string

  datatype Line = Line(error: string, digest: Digest, total: int, completed: int)

  /** Only a line without an error that names a layer and its size moves the sums. */
  predicate Counts(l: Line) {
    l.error == "" && l.total > 0 && l.digest != ""
  }

  /** The last line so far that reported layer `d`. */
  function Latest(lines: seq<Line>, d: Digest): Option<Line> {
    if lines == [] then None
    else
      var l := lines[|lines| - 1];
      if Counts(l) && l.digest == d then Some(l) else Latest(lines[..|lines| - 1], d)
  }

  /** The layers reported so far. */
  function Layers(lines: seq<Line>): set<Digest> {
    set i | 0 <= i < |lines| && Counts(lines[i]) :: lines[i].digest
  }

  lemma {:induction false} LatestIff(lines: seq<Line>, d: Digest)
    ensures Latest(lines, d).Some? <==> d in Layers(lines)
    ensures Latest(lines, d).Some? ==> Counts(Latest(lines, d).value) && Latest(lines, d).value.digest == d && Latest(lines, d).value in lines
  {
    if lines != [] {
      var rest, l := lines[..|lines| - 1], lines[|lines| - 1];
      LatestIff(rest, d);
      LayersSnoc(lines);
    }
  }

  lemma LayersSnoc(lines: seq<Line>)
    requires lines != []
    ensures
      var rest, l := lines[..|lines| - 1], lines[|lines| - 1];
      Layers(lines) == Layers(rest) + if Counts(l) then {l.digest} else {}
  {
  }

  /** The line counts: no error, a layer and a size. */
  predicate Reports(l: Line, d: Digest) {
    l.error == "" && l.total > 0 && l.digest == d && d != ""
  }

  /** The latest report of a layer is the last of its lines, if it has any. */
  lemma {:induction false} LatestIsLast(lines: seq<Line>, d: Digest)
    ensures Latest(lines, d).None? <==> forall l <- lines :: !Reports(l, d)
    ensures Latest(lines, d).Some? ==>
              exists i :: 0 <= i < |lines| && lines[i] == Latest(lines, d).value && Reports(lines[i], d) &&
                          forall j :: i < j < |lines| ==> !Reports(lines[j], d)
  {
    if lines != [] {
      var rest, l := lines[..|lines| - 1], lines[|lines| - 1];
      assert lines == rest + [l];
      if Reports(l, d) {
        assert lines[|lines| - 1] == Latest(lines, d).value;
      } else {
        LatestIsLast(rest, d);
        if Latest(rest, d).Some? {
          var i :| 0 <= i < |rest| && rest[i] == Latest(rest, d).value && Reports(rest[i], d) &&
                   forall j :: i < j < |rest| ==> !Reports(rest[j], d);
          assert lines[i] == rest[i];
        }
      }
    }
  }

  // ---------------------------------------------------------------- sums over layers

  ghost function Totals(lines: seq<Line>): map<Digest, int> {
    map d | d in Layers(lines) && Latest(lines, d).Some? :: Latest(lines, d).value.total
  }

  ghost function Completed(lines: seq<Line>): map<Digest, int> {
    map d | d in Layers(lines) && Latest(lines, d).Some? :: Latest(lines, d).value.completed
  }

  lemma MapsSnoc(lines: seq<Line>)
    requires lines != []
    ensures
      var rest, l := lines[..|lines| - 1], lines[|lines| - 1];
      && Totals(lines) == (if Counts(l) then Totals(rest)[l.digest := l.total] else Totals(rest))
      && Completed(lines) == (if Counts(l) then Completed(rest)[l.digest := l.completed] else Completed(rest))
  {
    var rest, l := lines[..|lines| - 1], lines[|lines| - 1];
    LayersSnoc(lines);
    AllLatestIff(lines);
    AllLatestIff(rest);
  }

  lemma AllLatestIff(lines: seq<Line>)
    ensures forall d :: Latest(lines, d).Some? <==> d in Layers(lines)
  {
    forall d ensures Latest(lines, d).Some? <==> d in Layers(lines) {
      LatestIff(lines, d);
    }
  }

  /** What one more line does to the sums. */
  lemma SumsSnoc(lines: seq<Line>, l: Line)
    requires Counts(l)
    ensures
      var before := Latest(lines, l.digest);
      && Sum(Totals(lines + [l])) == Sum(Totals(lines)) + l.total - (if before.Some? then before.value.total else 0)
      && Sum(Completed(lines + [l])) == Sum(Completed(lines)) + l.completed - (if before.Some? then before.value.completed else 0)
  {
    assert (lines + [l])[..|lines|] == lines;
    MapsSnoc(lines + [l]);
    LatestIff(lines, l.digest);
    SumUpdate(Totals(lines), l.digest, l.total);
    SumUpdate(Completed(lines), l.digest, l.completed);
  }

  /** The last error a line carried, or the empty text. */
  function LastError(lines: seq<Line>): string {
    if lines == [] then ""
    else if lines[|lines| - 1].error != "" then lines[|lines| - 1].error
    else LastError(lines[..|lines| - 1])
  }

  lemma {:induction false} LastErrorIsLast(lines: seq<Line>)
    ensures LastError(lines) == "" <==> forall l <- lines :: l.error == ""
    ensures LastError(lines) != "" ==>
              exists i :: 0 <= i < |lines| && lines[i].error == LastError(lines) && forall j :: i < j < |lines| ==> lines[j].error == ""
  {
    if lines != [] {
      var rest, l := lines[..|lines| - 1], lines[|lines| - 1];
      assert lines == rest + [l];
      if l.error != "" {
        assert lines[|lines| - 1].error == LastError(lines);
      } else {
        LastErrorIsLast(rest);
        if LastError(rest) != "" {
          var i :| 0 <= i < |rest| && rest[i].error == LastError(rest) && forall j :: i < j < |rest| ==> rest[j].error == "";
          assert lines[i] == rest[i];
        }
      }
    }
  }

  /** What reading line `i` does to the maps and the error. */
  lemma PrefixSnoc(lines: seq<Line>, i: nat)
    requires i < |lines|
    ensures
      var before, after, l := lines[..i], lines[..i + 1], lines[i];
      && Totals(after) == (if Counts(l) then Totals(before)[l.digest := l.total] else Totals(before))
      && Completed(after) == (if Counts(l) then Completed(before)[l.digest := l.completed] else Completed(before))
      && LastError(after) == (if l.error != "" then l.error else LastError(before))
  {
    assert lines[..i + 1][..i] == lines[..i];
    MapsSnoc(lines[..i + 1]);
  }

  // ---------------------------------------------------------------- the code

  /**
   Pull progress is an exact sum: what the job shows at the end, and after every line on
   the way, are the sums, over the layers seen, of each layer's latest report.  The last
   error fails the job; without one the download counts as done.
   */
  method RunDirectPull(job: PullJobs.PullJob, lines: seq<Line>, loads: bool)
    requires job.bytesTotal == job.bytesCompleted == 0
    modifies job
    ensures job.bytesTotal == Sum(Totals(lines)) && job.bytesCompleted == Sum(Completed(lines))
    ensures LastError(lines) != "" ==> job.status == PullJobs.Finish(old(job.status), PullJobs.Failed)
    ensures LastError(lines) != "" && PullJobs.Active(old(job.status)) ==> job.error == LastError(lines)
    ensures LastError(lines) == "" && !job.verifyLoad ==> job.status == PullJobs.Finish(old(job.status), PullJobs.Succeeded)
    ensures LastError(lines) == "" && job.verifyLoad && old(job.status).Downloading? ==>
              job.status == if loads then PullJobs.Succeeded else PullJobs.LoadFailed
    ensures !PullJobs.Active(old(job.status)) ==> job.status == old(job.status)
  {
    var lastErr := ReportLines(job, lines);
    if lastErr != "" {
      job.SetFinished(PullJobs.Failed, lastErr);
      return;
    }
    var checked := job.CompletePull(loads);
  }

  /** Replaces what a layer reported before and moves the running sum by the difference. */
  method Adjust(sum: int, layers: map<Digest, int>, d: Digest, v: int) returns (sum': int, layers': map<Digest, int>)
    requires sum == Sum(layers)
    ensures layers' == layers[d := v] && sum' == Sum(layers')
  {
    SumUpdate(layers, d, v);
    sum' := sum + v - if d in layers then layers[d] else 0;
    layers' := layers[d := v];
  }

  /** The loop over the progress lines. */
  method ReportLines(job: PullJobs.PullJob, lines: seq<Line>) returns (lastErr: string)
    requires job.bytesTotal == job.bytesCompleted == 0
    modifies job`bytesTotal, job`bytesCompleted
    ensures job.bytesTotal == Sum(Totals(lines)) && job.bytesCompleted == Sum(Completed(lines))
    ensures lastErr == LastError(lines)
  {
    var layerTotal: map<Digest, int> := map[];
    var layerCompleted: map<Digest, int> := map[];
    var total, completed := 0, 0;
    lastErr := "";
    assert Totals([]) == map[] && Completed([]) == map[];
    for i := 0 to |lines|
      invariant layerTotal == Totals(lines[..i]) && layerCompleted == Completed(lines[..i])
      invariant total == Sum(layerTotal) && completed == Sum(layerCompleted)
      invariant job.bytesTotal == total && job.bytesCompleted == completed
      invariant lastErr == LastError(lines[..i])
    {
      PrefixSnoc(lines, i);
      var line := lines[i];
      if line.error != "" {
        lastErr := line.error;
      } else if line.total > 0 && line.digest != "" {
        total, layerTotal := Adjust(total, layerTotal, line.digest, line.total);
        completed, layerCompleted := Adjust(completed, layerCompleted, line.digest, line.completed);
        job.SetProgress(total, completed);
      }
    }
    assert lines[..|lines|] == lines;
  }

  // ---------------------------------------------------------------- what the sums keep

  /** Completed never exceeds total if no line's does. */
  lemma CompletedWithinTotal(lines: seq<Line>)
    requires forall l <- lines :: Counts(l) ==> l.completed <= l.total
    ensures Sum(Completed(lines)) <= Sum(Totals(lines))
  {
    forall d ensures Latest(lines, d).Some? ==> Latest(lines, d).value.completed <= Latest(lines, d).value.total {
      LatestIff(lines, d);
    }
    SumMono(Completed(lines), Totals(lines));
  }

  /** No layer reports fewer completed bytes than before, nor a negative number at first. */
  predicate LayersClimb(lines: seq<Line>) {
    forall i :: 0 <= i < |lines| && Counts(lines[i]) ==>
      var before := Latest(lines[..i], lines[i].digest);
      lines[i].completed >= if before.Some? then before.value.completed else 0
  }

  /** The completed bytes after the first `n` lines. */
  ghost function DoneAfter(lines: seq<Line>, n: nat): int
    requires n <= |lines|
  {
    Sum(Completed(lines[..n]))
  }

  lemma StepClimbs(lines: seq<Line>, n: nat)
    requires n < |lines| && LayersClimb(lines)
    ensures DoneAfter(lines, n) <= DoneAfter(lines, n + 1)
  {
    var l := lines[n];
    PrefixSnoc(lines, n);
    if Counts(l) {
      SumUpdate(Completed(lines[..n]), l.digest, l.completed);
      LatestIff(lines[..n], l.digest);
    }
  }

  /** The completed byte count never goes back when no layer's own count does. */
  lemma {:induction false} CompletedNeverGoesBack(lines: seq<Line>, m: nat, n: nat)
    requires m <= n <= |lines| && LayersClimb(lines)
    ensures DoneAfter(lines, m) <= DoneAfter(lines, n)
    decreases n - m
  {
    if m < n {
      StepClimbs(lines, n - 1);
      CompletedNeverGoesBack(lines, m, n - 1);
    }
  }

  // ---------------------------------------------------------------- the bar

  lemma SomeLayerPositive(lines: seq<Line>)
    requires Layers(lines) != {}
    ensures Sum(Totals(lines)) > 0
  {
    forall d ensures Latest(lines, d).Some? <==> d in Layers(lines)
      ensures Latest(lines, d).Some? ==> Latest(lines, d).value.total > 0
    {
      LatestIff(lines, d);
    }
    assert Totals(lines).Keys == Layers(lines);
    SumPositive(Totals(lines));
  }

  /** The percentage the dashboard draws for two byte counts. */
  function Percent(completed: int, total: int): real
    requires total > 0
  {
    var pct := completed as real / total as real * 100.0;
    if pct > 100.0 then 100.0 else pct
  }

  ghost function Bar(lines: seq<Line>): real
    requires Sum(Totals(lines)) > 0
  {
    Percent(Sum(Completed(lines)), Sum(Totals(lines)))
  }

  /** By how much one more line changes the total, and the completed bytes. */
  function TotalChange(lines: seq<Line>, l: Line): int {
    if !Counts(l) then 0
    else l.total - if Latest(lines, l.digest).Some? then Latest(lines, l.digest).value.total else 0
  }

  function CompletedChange(lines: seq<Line>, l: Line): int {
    if !Counts(l) then 0
    else l.completed - if Latest(lines, l.digest).Some? then Latest(lines, l.digest).value.completed else 0
  }

  lemma SumsChange(lines: seq<Line>, l: Line)
    ensures Sum(Totals(lines + [l])) == Sum(Totals(lines)) + TotalChange(lines, l)
    ensures Sum(Completed(lines + [l])) == Sum(Completed(lines)) + CompletedChange(lines, l)
  {
    if Counts(l) {
      SumsSnoc(lines, l);
    } else {
      assert (lines + [l])[..|lines|] == lines;
      MapsSnoc(lines + [l]);
    }
  }

  /** One fraction is below another exactly when the cross products are. */
  lemma CrossProducts(c: int, t: int, c': int, t': int)
    requires t > 0 && t' > 0
    ensures c' as real / t' as real < c as real / t as real <==> c' * t < c * t'
  {
    var x, y := c as real / t as real, c' as real / t' as real;
    assert x * t as real == c as real && y * t' as real == c' as real;
    assert (c' * t) as real == y * (t as real * t' as real);
    assert (c * t') as real == x * (t as real * t' as real);
    assert t as real * t' as real > 0.0;
  }

  lemma PercentFallsIff(c: int, t: int, dc: int, dt: int)
    requires t > 0 && t + dt > 0
    ensures Percent(c + dc, t + dt) < Percent(c, t) <==> c + dc < t + dt && dc * t < c * dt
  {
    CrossProducts(c, t, c + dc, t + dt);
    CrossProducts(1, 1, c + dc, t + dt);
    CrossProducts(1, 1, c, t);
    Expand(c, t, dc, dt);
  }

  lemma Expand(c: int, t: int, dc: int, dt: int)
    ensures (c + dc) * t < c * (t + dt) <==> dc * t < c * dt
  {
    assert (c + dc) * t == c * t + dc * t;
    assert c * (t + dt) == c * t + c * dt;
  }

  lemma TotalsStayPositive(lines: seq<Line>, l: Line)
    requires Layers(lines) != {}
    ensures Sum(Totals(lines)) > 0 && Sum(Totals(lines + [l])) > 0
  {
    SomeLayerPositive(lines);
    LayersSnoc(lines + [l]);
    assert (lines + [l])[..|lines|] == lines;
    SomeLayerPositive(lines + [l]);
  }

  /**
   The bytes only climb, the drawn bar does not: any further line, a first report of a
   layer or a repeated one with or without a new size, moves the bar back exactly when
   the sums are not complete after it and it adds proportionally less to the completed
   bytes than to the total.
   */
  lemma BarGoesBackIff(lines: seq<Line>, l: Line)
    requires Layers(lines) != {}
    ensures Sum(Totals(lines)) > 0 && Sum(Totals(lines + [l])) > 0
    ensures
      var c, t := Sum(Completed(lines)), Sum(Totals(lines));
      var dc, dt := CompletedChange(lines, l), TotalChange(lines, l);
      Bar(lines + [l]) < Bar(lines) <==> c + dc < t + dt && dc * t < c * dt
  {
    TotalsStayPositive(lines, l);
    SumsChange(lines, l);
    PercentFallsIff(Sum(Completed(lines)), Sum(Totals(lines)), CompletedChange(lines, l), TotalChange(lines, l));
  }

  /** When every line reports at most its own size, the proportion alone decides. */
  lemma BoundedBarGoesBackIff(lines: seq<Line>, l: Line)
    requires Layers(lines) != {} && forall k <- lines + [l] :: Counts(k) ==> k.completed <= k.total
    ensures Sum(Totals(lines)) > 0 && Sum(Totals(lines + [l])) > 0
    ensures Bar(lines + [l]) < Bar(lines) <==>
              CompletedChange(lines, l) * Sum(Totals(lines)) < Sum(Completed(lines)) * TotalChange(lines, l)
  {
    BarGoesBackIff(lines, l);
    SumsChange(lines, l);
    CompletedWithinTotal(lines + [l]);
    assert forall k <- lines :: k in lines + [l];
    CompletedWithinTotal(lines);
    var c, t, dc, dt := Sum(Completed(lines)), Sum(Totals(lines)), CompletedChange(lines, l), TotalChange(lines, l);
    if dc * t < c * dt {
      FullIsNoStepBack(c, t, dc, dt);
    }
  }

  lemma FullIsNoStepBack(c: int, t: int, dc: int, dt: int)
    requires c <= t && t + dt > 0 && c + dc <= t + dt && dc * t < c * dt
    ensures c + dc < t + dt
  {
    Expand(c, t, dc, dt);
    if c + dc == t + dt {
      FullFractionIsLargest(c, t, t + dt);
    }
  }

  lemma FullFractionIsLargest(c: int, t: int, n: int)
    requires c <= t && n > 0
    ensures n * t >= c * n
  {
  }

  lemma OneLineSums(l: Line)
    requires Counts(l)
    ensures Layers([l]) == {l.digest} && Sum(Totals([l])) == l.total && Sum(Completed([l])) == l.completed
  {
    assert [] + [l] == [l] && [l][..0] == [];
    LayersSnoc([l]);
    SumsSnoc([], l);
    assert Totals([]) == map[] && Completed([]) == map[];
  }

  /** After one complete layer any line that leaves its layer incomplete moves the bar back. */
  lemma FullBarFalls(first: Line, l: Line)
    requires Counts(first) && first.completed == first.total && Counts(l) && l.completed < l.total
    ensures Sum(Totals([first])) > 0 && Sum(Totals([first] + [l])) > 0 && Bar([first] + [l]) < Bar([first])
  {
    OneLineSums(first);
    LatestIff([first], l.digest);
    BarGoesBackIff([first], l);
    ScaledLess(CompletedChange([first], l), TotalChange([first], l), first.total);
  }

  lemma ScaledLess(x: int, y: int, t: int)
    requires x < y && t > 0
    ensures x * t < t * y
  {
  }

  /**
   The bar does go back in pulls whose layers only climb: after one complete layer both
   the start of a second layer and a larger size for the first one halve it.
   */
  lemma BarCanGoBack() returns (lines: seq<Line>, other: Line, larger: Line)
    ensures Sum(Totals(lines)) > 0 && other.digest !in Layers(lines) && larger.digest in Layers(lines)
    ensures forall l <- [other, larger] ::
              LayersClimb(lines + [l]) && Sum(Totals(lines + [l])) > 0 && Bar(lines + [l]) < Bar(lines)
  {
    var first := Line("", "a", 10, 10);
    lines, other, larger := [first], Line("", "b", 10, 0), Line("", "a", 20, 10);
    OneLineSums(first);
    FullBarFalls(first, other);
    FullBarFalls(first, larger);
    ClimbsAfter(first, other);
    ClimbsAfter(first, larger);
  }

  lemma ClimbsAfter(first: Line, l: Line)
    requires Counts(first) && first.completed >= 0
    requires l.completed >= if l.digest == first.digest then first.completed else 0
    ensures LayersClimb([first] + [l])
  {
    var lines := [first] + [l];
    assert lines[..0] == [] && lines[..1] == [first];
    assert [first][..0] == [];
  }
}
