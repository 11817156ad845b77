/**
 The in-memory analytics: hourly buckets that are pruned as they grow, and per-model
 totals, against a replay of the whole event log.
 */
module HourlyRollup {
  import opened Sums

  const HOUR: int := 3_600_000_000_000       // nanoseconds
  const RETENTION: int := 48 * HOUR

  /** An hour of UTC time, counted from a fixed start; the source keys it by its formatted text. */
  datatype Hour = Hour(index: int)

  datatype Bucket = Bucket(local: int, cloud: int, saved: real, spent: real, tokens: int, genMs: int)

  datatype ModelStat = ModelStat(model: string, local: int, cloud: int, saved: real)

  datatype Event =
    | Local(at: int, model: string, tokens: int, genMs: int)
    | Cloud(at: int, model: string, costPer1K: real, tokens: int)

  datatype Analytics = Analytics(hourly: map<Hour, Bucket>, byModel: map<string, ModelStat>)

  const Zero: Bucket := Bucket(0, 0, 0.0, 0.0, 0, 0)

  function HourOf(t: int): Hour {
    Hour(t / HOUR)
  }

  function Worth(rate: real, tokens: int): real {
    rate * tokens as real / 1000.0
  }

  // ---------------------------------------------------------------- one event

  function AddTo(b: Bucket, e: Event, ref: real): Bucket {
    match e
    case Local(_, _, tokens, genMs) =>
      b.(local := b.local + 1, saved := b.saved + Worth(ref, tokens), tokens := b.tokens + tokens, genMs := b.genMs + genMs)
    case Cloud(_, _, rate, tokens) => b.(cloud := b.cloud + 1, spent := b.spent + Worth(rate, tokens))
  }

  function AddToModel(m: ModelStat, e: Event, ref: real): ModelStat {
    match e
    case Local(_, _, tokens, _) => m.(local := m.local + 1, saved := m.saved + Worth(ref, tokens))
    case Cloud(_, _, _, _) => m.(cloud := m.cloud + 1)
  }

  /** A bucket older than the retention at time `now`. */
  predicate Expired(h: Hour, now: int) {
    now - h.index * HOUR > RETENTION
  }

  function Fresh(hourly: map<Hour, Bucket>, now: int): map<Hour, Bucket> {
    map h | h in hourly && !Expired(h, now) :: hourly[h]
  }

  /** Pruning only happens once more than 48 hours are held. */
  function Pruned(hourly: map<Hour, Bucket>, now: int): map<Hour, Bucket> {
    if |hourly| <= 48 then hourly else Fresh(hourly, now)
  }

  function Lookup(hourly: map<Hour, Bucket>, h: Hour): Bucket {
    if h in hourly then hourly[h] else Zero
  }

  function LookupModel(byModel: map<string, ModelStat>, m: string): ModelStat {
    if m in byModel then byModel[m] else ModelStat(m, 0, 0, 0.0)
  }

  function Recorded(a: Analytics, e: Event, ref: real): Analytics {
    var hourly := Pruned(a.hourly, e.at);
    var h := HourOf(e.at);
    Analytics(hourly[h := AddTo(Lookup(hourly, h), e, ref)],
              a.byModel[e.model := AddToModel(LookupModel(a.byModel, e.model), e, ref)])
  }

  // ---------------------------------------------------------------- the whole log

  function Replay(es: seq<Event>, ref: real): Analytics {
    if es == [] then Analytics(map[], map[]) else Recorded(Replay(es[..|es| - 1], ref), es[|es| - 1], ref)
  }

  /** What one hour should hold: its own events, nothing else. */
  function HourReplay(es: seq<Event>, h: Hour, ref: real): Bucket {
    if es == [] then Zero
    else
      var b := HourReplay(es[..|es| - 1], h, ref);
      if HourOf(es[|es| - 1].at) == h then AddTo(b, es[|es| - 1], ref) else b
  }

  function ModelReplay(es: seq<Event>, m: string, ref: real): ModelStat {
    if es == [] then ModelStat(m, 0, 0, 0.0)
    else
      var s := ModelReplay(es[..|es| - 1], m, ref);
      if es[|es| - 1].model == m then AddToModel(s, es[|es| - 1], ref) else s
  }

  predicate Ordered(es: seq<Event>) {
    forall i, j :: 0 <= i <= j < |es| ==> es[i].at <= es[j].at
  }

  lemma Overwrite<K, V>(m: map<K, V>, k: K, u: V, v: V)
    ensures m[k := u][k := v] == m[k := v]
  {
  }

  lemma AppendToReplay(es: seq<Event>, e: Event, ref: real, before: Analytics, after: Analytics)
    requires Ordered(es) && (es != [] ==> es[|es| - 1].at <= e.at)
    requires before == Replay(es, ref)
    requires
      var hourly, h := Pruned(before.hourly, e.at), HourOf(e.at);
      after.hourly == hourly[h := AddTo(Lookup(hourly, h), e, ref)]
    requires after.byModel == before.byModel[e.model := AddToModel(LookupModel(before.byModel, e.model), e, ref)]
    ensures after == Replay(es + [e], ref) && Ordered(es + [e])
  {
    assert (es + [e])[..|es + [e]| - 1] == es;
  }

  lemma ExpiredMono(h: Hour, t: int, now: int)
    requires t <= now && Expired(h, t)
    ensures Expired(h, now)
  {
  }

  lemma CurrentHourIsFresh(t: int)
    ensures !Expired(HourOf(t), t)
  {
  }

  /** An hour that has not expired holds exactly its events, whatever was pruned on the way. */
  lemma {:induction false} FreshHoursAreExact(es: seq<Event>, h: Hour, now: int, ref: real)
    requires Ordered(es) && (es != [] ==> es[|es| - 1].at <= now) && !Expired(h, now)
    ensures Lookup(Replay(es, ref).hourly, h) == HourReplay(es, h, ref)
  {
    if es != [] {
      var rest, e := es[..|es| - 1], es[|es| - 1];
      assert rest != [] ==> rest[|rest| - 1] == es[|es| - 2];
      if Expired(h, e.at) {
        ExpiredMono(h, e.at, now);
      }
      FreshHoursAreExact(rest, h, e.at, ref);
    }
  }

  /** Any hour still held, expired or not, holds exactly its events: a pruned hour never comes back half empty. */
  lemma {:induction false} KeptHoursAreExact(es: seq<Event>, h: Hour, ref: real)
    requires Ordered(es) && h in Replay(es, ref).hourly
    ensures Replay(es, ref).hourly[h] == HourReplay(es, h, ref)
  {
    var rest, e := es[..|es| - 1], es[|es| - 1];
    if Expired(h, e.at) {
      KeptHoursAreExact(rest, h, ref);
    } else {
      FreshHoursAreExact(es, h, e.at, ref);
    }
  }

  lemma {:induction false} KeysInThePast(es: seq<Event>, ref: real)
    requires Ordered(es) && es != []
    ensures forall h <- Replay(es, ref).hourly :: h.index <= HourOf(es[|es| - 1].at).index
  {
    var rest, e := es[..|es| - 1], es[|es| - 1];
    if rest != [] {
      KeysInThePast(rest, ref);
      assert rest[|rest| - 1] == es[|es| - 2];
      assert es[|es| - 2].at <= e.at;
      HourMono(es[|es| - 2].at, e.at);
    }
  }

  lemma HourMono(s: int, t: int)
    requires s <= t
    ensures HourOf(s).index <= HourOf(t).index
  {
  }

  lemma {:induction false} IntervalCount(s: set<Hour>, lo: int, n: nat)
    requires forall x <- s :: lo <= x.index < lo + n
    ensures |s| <= n
    decreases n
  {
    if n == 0 {
      if x :| x in s {
        assert false;
      }
      assert s == {};
    } else {
      IntervalCount(s - {Hour(lo + n - 1)}, lo, n - 1);
    }
  }

  lemma NotExpiredIsRecent(h: Hour, now: int)
    requires !Expired(h, now)
    ensures HourOf(now).index - 48 <= h.index
  {
  }

  /** The map never holds more than 49 hours. */
  lemma {:induction false} AtMost49Hours(es: seq<Event>, ref: real)
    requires Ordered(es)
    ensures |Replay(es, ref).hourly| <= 49
  {
    if es != [] {
      var rest, e := es[..|es| - 1], es[|es| - 1];
      AtMost49Hours(rest, ref);
      var before, after := Replay(rest, ref).hourly, Replay(es, ref).hourly;
      var h := HourOf(e.at);
      assert after.Keys == Pruned(before, e.at).Keys + {h};
      if |before| > 48 {
        KeysInThePast(es, ref);
        forall x <- after.Keys ensures h.index - 48 <= x.index < h.index - 48 + 49 {
          CurrentHourIsFresh(e.at);
          NotExpiredIsRecent(x, e.at);
        }
        IntervalCount(after.Keys, h.index - 48, 49);
      }
    }
  }

  // ---------------------------------------------------------------- per-model totals

  lemma {:induction false} ModelsAreExact(es: seq<Event>, m: string, ref: real)
    ensures LookupModel(Replay(es, ref).byModel, m) == ModelReplay(es, m, ref)
    ensures m in Replay(es, ref).byModel ==> Replay(es, ref).byModel[m].model == m
  {
    if es != [] {
      ModelsAreExact(es[..|es| - 1], m, ref);
    }
  }

  function Requests(s: ModelStat): int {
    s.local + s.cloud
  }

  /** The requests of each model. */
  function Counts(m: map<string, ModelStat>): map<string, int> {
    map k | k in m :: Requests(m[k])
  }

  /** The per-model counts add up to all requests ever recorded. */
  lemma {:induction false} ModelCountsSumToLog(es: seq<Event>, ref: real)
    ensures Sum(Counts(Replay(es, ref).byModel)) == |es|
  {
    if es != [] {
      var rest, e := es[..|es| - 1], es[|es| - 1];
      ModelCountsSumToLog(rest, ref);
      var before, after := Replay(rest, ref).byModel, Replay(es, ref).byModel;
      var n := Requests(LookupModel(before, e.model));
      assert Counts(after) == Counts(before)[e.model := n + 1];
      SumUpdate(Counts(before), e.model, n + 1);
    }
  }

  /** A model is listed exactly when the log has an event of it. */
  lemma {:induction false} ListedIffSeen(es: seq<Event>, m: string, ref: real)
    ensures m in Replay(es, ref).byModel <==> exists e <- es :: e.model == m
  {
    if es != [] {
      var rest, last := es[..|es| - 1], es[|es| - 1];
      ListedIffSeen(rest, m, ref);
      assert es == rest + [last];
      assert last in es;
    }
  }

  // ---------------------------------------------------------------- the figures against the log

  /** The event falls in the hour, in nanoseconds. */
  predicate InHour(at: int, h: Hour) {
    h.index * 3_600_000_000_000 <= at < (h.index + 1) * 3_600_000_000_000
  }

  lemma HourOfIsTheHour(at: int, h: Hour)
    ensures InHour(at, h) <==> h == HourOf(at)
  {
  }

  /** The events of one hour. */
  function OfHour(es: seq<Event>, h: Hour): seq<Event> {
    if es == [] then []
    else OfHour(es[..|es| - 1], h) + if InHour(es[|es| - 1].at, h) then [es[|es| - 1]] else []
  }

  /** The events of one model. */
  function OfModel(es: seq<Event>, m: string): seq<Event> {
    if es == [] then []
    else OfModel(es[..|es| - 1], m) + if es[|es| - 1].model == m then [es[|es| - 1]] else []
  }

  function LocalCount(es: seq<Event>): nat {
    if es == [] then 0 else LocalCount(es[..|es| - 1]) + if es[|es| - 1].Local? then 1 else 0
  }

  function CloudCount(es: seq<Event>): nat {
    if es == [] then 0 else CloudCount(es[..|es| - 1]) + if es[|es| - 1].Cloud? then 1 else 0
  }

  function LocalTokens(es: seq<Event>): int {
    if es == [] then 0 else LocalTokens(es[..|es| - 1]) + if es[|es| - 1].Local? then es[|es| - 1].tokens else 0
  }

  function LocalGenMs(es: seq<Event>): int {
    if es == [] then 0 else LocalGenMs(es[..|es| - 1]) + if es[|es| - 1].Local? then es[|es| - 1].genMs else 0
  }

  /** What the local requests would have cost at the reference rate. */
  function LocalSavings(es: seq<Event>, ref: real): real {
    if es == [] then 0.0
    else
      var e := es[|es| - 1];
      LocalSavings(es[..|es| - 1], ref) + if e.Local? then ref * e.tokens as real / 1000.0 else 0.0
  }

  function CloudSpend(es: seq<Event>): real {
    if es == [] then 0.0
    else
      var e := es[|es| - 1];
      CloudSpend(es[..|es| - 1]) + if e.Cloud? then e.costPer1K * e.tokens as real / 1000.0 else 0.0
  }

  lemma FiguresSnoc(es: seq<Event>, e: Event)
    ensures LocalCount(es + [e]) == LocalCount(es) + (if e.Local? then 1 else 0)
    ensures CloudCount(es + [e]) == CloudCount(es) + (if e.Cloud? then 1 else 0)
    ensures LocalTokens(es + [e]) == LocalTokens(es) + (if e.Local? then e.tokens else 0)
    ensures forall ref :: LocalSavings(es + [e], ref) == LocalSavings(es, ref) + (if e.Local? then ref * e.tokens as real / 1000.0 else 0.0)
    ensures LocalGenMs(es + [e]) == LocalGenMs(es) + (if e.Local? then e.genMs else 0)
    ensures CloudSpend(es + [e]) == CloudSpend(es) + (if e.Cloud? then e.costPer1K * e.tokens as real / 1000.0 else 0.0)
  {
    assert (es + [e])[..|es + [e]| - 1] == es;
  }

  /** Savings are the reference rate times the local tokens, per thousand. */
  lemma {:induction false} SavingsAreTokens(es: seq<Event>, ref: real)
    ensures LocalSavings(es, ref) == ref * LocalTokens(es) as real / 1000.0
  {
    if es != [] {
      var rest, e := es[..|es| - 1], es[|es| - 1];
      SavingsAreTokens(rest, ref);
      Distributes(ref, LocalTokens(rest), if e.Local? then e.tokens else 0);
    }
  }

  lemma Distributes(ref: real, a: int, b: int)
    ensures ref * (a + b) as real / 1000.0 == ref * a as real / 1000.0 + ref * b as real / 1000.0
  {
    assert (a + b) as real == a as real + b as real;
    assert ref * (a as real + b as real) == ref * a as real + ref * b as real;
  }

  /** What a bucket of these events holds, figure by figure. */
  predicate Holds(b: Bucket, own: seq<Event>, ref: real) {
    && b.local == LocalCount(own) && b.cloud == CloudCount(own)
    && b.tokens == LocalTokens(own) && b.genMs == LocalGenMs(own)
    && b.saved == LocalSavings(own, ref) && b.spent == CloudSpend(own)
  }

  predicate HoldsForModel(s: ModelStat, own: seq<Event>, ref: real) {
    && s.local == LocalCount(own) && s.cloud == CloudCount(own)
    && s.saved == LocalSavings(own, ref)
  }

  lemma AddToHolds(b: Bucket, own: seq<Event>, e: Event, ref: real)
    requires Holds(b, own, ref)
    ensures Holds(AddTo(b, e, ref), own + [e], ref)
  {
    FiguresSnoc(own, e);
  }

  lemma AddToModelHolds(s: ModelStat, own: seq<Event>, e: Event, ref: real)
    requires HoldsForModel(s, own, ref)
    ensures HoldsForModel(AddToModel(s, e, ref), own + [e], ref) && AddToModel(s, e, ref).model == s.model
  {
    FiguresSnoc(own, e);
  }

  /**
   The replay of an hour, figure by figure: as many local and cloud requests as the log
   has in that hour, their local tokens and generation time, what those tokens are worth
   at the reference rate, and what the cloud requests cost.
   */
  lemma {:induction false} HourFigures(es: seq<Event>, h: Hour, ref: real)
    ensures
      var b, own := HourReplay(es, h, ref), OfHour(es, h);
      && b.local == LocalCount(own) && b.cloud == CloudCount(own)
      && b.tokens == LocalTokens(own) && b.genMs == LocalGenMs(own)
      && b.saved == LocalSavings(own, ref) && b.spent == CloudSpend(own)
  {
    if es != [] {
      var rest, e := es[..|es| - 1], es[|es| - 1];
      HourFigures(rest, h, ref);
      HourOfIsTheHour(e.at, h);
      if InHour(e.at, h) {
        AddToHolds(HourReplay(rest, h, ref), OfHour(rest, h), e, ref);
      } else {
        assert OfHour(rest, h) + [] == OfHour(rest, h);
      }
    }
  }

  /** The same for a model. */
  lemma {:induction false} ModelFigures(es: seq<Event>, m: string, ref: real)
    ensures
      var s, own := ModelReplay(es, m, ref), OfModel(es, m);
      && s.model == m && s.local == LocalCount(own) && s.cloud == CloudCount(own)
      && s.saved == LocalSavings(own, ref)
  {
    if es != [] {
      var rest, e := es[..|es| - 1], es[|es| - 1];
      ModelFigures(rest, m, ref);
      if e.model == m {
        AddToModelHolds(ModelReplay(rest, m, ref), OfModel(rest, m), e, ref);
      } else {
        assert OfModel(rest, m) + [] == OfModel(rest, m);
      }
    }
  }

  // ---------------------------------------------------------------- the dashboard view

  datatype HourView = HourView(hour: Hour, bucket: Bucket, tokensPerSec: real)

  /** The hour in row `i` of the 24 shown, oldest first. */
  function ShownHour(now: int, i: int): (h: Hour)
    ensures h.index == HourOf(now).index - 23 + i
  {
    HourOf(now + (i - 23) * HOUR)
  }

  function Rate(b: Bucket): real {
    if b.genMs > 0 then b.tokens as real / (b.genMs as real / 1000.0) else 0.0
  }

  /**
   Pruned roll-up agrees with the log: after any events in order of time, each of the
   24 hours shown at any later time is the replay of exactly the events of that hour.
   */
  lemma {:induction false} Last24HoursAreExact(es: seq<Event>, now: int, i: nat, ref: real)
    requires Ordered(es) && (es != [] ==> es[|es| - 1].at <= now) && i < 24
    ensures
      var h := ShownHour(now, i);
      Lookup(Replay(es, ref).hourly, h) == HourReplay(es, h, ref)
  {
    FreshHoursAreExact(es, ShownHour(now, i), now, ref);
  }

  // ---------------------------------------------------------------- the code

  class Store {
    const ref: real
    var hourly: map<Hour, Bucket>
    var byModel: map<string, ModelStat>
    ghost var log: seq<Event>                 // every event recorded so far

    ghost function View(): Analytics
      reads this
    {
      Analytics(hourly, byModel)
    }

    /** The live maps are what recording the log one event at a time gives. */
    ghost predicate Valid()
      reads this
    {
      View() == Replay(log, ref) && Ordered(log)
    }

    /** Nothing was recorded after `now`. */
    ghost predicate UpTo(now: int)
      reads this
    {
      log != [] ==> log[|log| - 1].at <= now
    }

    constructor (ref: real)
      ensures this.ref == ref && log == [] && Valid()
    {
      this.ref := ref;
      hourly, byModel, log := map[], map[], [];
    }

    method PruneHourly(now: int)
      modifies `hourly
      ensures hourly == Pruned(old(hourly), now)
      ensures |old(hourly)| <= 48 ==> hourly == old(hourly)
      ensures |old(hourly)| > 48 ==>
                forall h :: h in hourly <==> h in old(hourly) && now - h.index * 3_600_000_000_000 <= 172_800_000_000_000
      ensures forall h <- hourly :: h in old(hourly) && hourly[h] == old(hourly)[h]
    {
      if |hourly| <= 48 {
        return;
      }
      hourly := DropExpired(hourly, now);
    }

    /** The bucket of an hour, created when it is missing. */
    method BucketAt(key: Hour) returns (b: Bucket)
      modifies `hourly
      ensures b == Lookup(old(hourly), key) && hourly == old(hourly)[key := b]
    {
      if key !in hourly {
        hourly := hourly[key := Zero];
      }
      b := hourly[key];
      assert hourly == old(hourly)[key := b];
    }

    method StatOf(model: string) returns (m: ModelStat)
      modifies `byModel
      ensures m == LookupModel(old(byModel), model) && byModel == old(byModel)[model := m]
    {
      if model !in byModel {
        byModel := byModel[model := ModelStat(model, 0, 0, 0.0)];
      }
      m := byModel[model];
      assert byModel == old(byModel)[model := m];
    }

    method RecordLocal(now: int, model: string, tokens: int, genMs: int)
      requires Valid() && UpTo(now)
      modifies this
      ensures Valid() && UpTo(now) && log == old(log) + [Local(now, model, tokens, genMs)]
    {
      var saved := Worth(ref, tokens);
      PruneHourly(now);
      ghost var e := Local(now, model, tokens, genMs);
      AddLocal(HourOf(now), model, saved, tokens, genMs, e);
      AppendToReplay(log, e, ref, old(View()), View());
      log := log + [e];
    }

    /** Adds a local request to its hour and its model. */
    method AddLocal(key: Hour, model: string, saved: real, tokens: int, genMs: int, ghost e: Event)
      requires e == Local(e.at, model, tokens, genMs) && saved == Worth(ref, tokens)
      modifies `hourly, `byModel
      ensures hourly == old(hourly)[key := AddTo(Lookup(old(hourly), key), e, ref)]
      ensures byModel == old(byModel)[model := AddToModel(LookupModel(old(byModel), model), e, ref)]
    {
      var b := BucketAt(key);
      hourly := hourly[key := b.(local := b.local + 1, saved := b.saved + saved, tokens := b.tokens + tokens, genMs := b.genMs + genMs)];
      Overwrite(old(hourly), key, b, hourly[key]);
      var m := StatOf(model);
      byModel := byModel[model := m.(local := m.local + 1, saved := m.saved + saved)];
      Overwrite(old(byModel), model, m, byModel[model]);
    }

    method RecordCloud(now: int, model: string, costPer1K: real, tokens: int)
      requires Valid() && UpTo(now)
      modifies this
      ensures Valid() && UpTo(now) && log == old(log) + [Cloud(now, model, costPer1K, tokens)]
    {
      var spent := Worth(costPer1K, tokens);
      PruneHourly(now);
      ghost var e := Cloud(now, model, costPer1K, tokens);
      AddCloud(HourOf(now), model, spent, e);
      AppendToReplay(log, e, ref, old(View()), View());
      log := log + [e];
    }

    /** Adds a cloud request to its hour and its model. */
    method AddCloud(key: Hour, model: string, spent: real, ghost e: Event)
      requires e.Cloud? && e.model == model && spent == Worth(e.costPer1K, e.tokens)
      modifies `hourly, `byModel
      ensures hourly == old(hourly)[key := AddTo(Lookup(old(hourly), key), e, ref)]
      ensures byModel == old(byModel)[model := AddToModel(LookupModel(old(byModel), model), e, ref)]
    {
      var b := BucketAt(key);
      hourly := hourly[key := b.(cloud := b.cloud + 1, spent := b.spent + spent)];
      Overwrite(old(hourly), key, b, hourly[key]);
      var m := StatOf(model);
      byModel := byModel[model := m.(cloud := m.cloud + 1)];
      Overwrite(old(byModel), model, m, byModel[model]);
    }

    /** The last 24 hours, oldest first. */
    method Last24hBuckets(now: int) returns (views: seq<HourView>)
      requires Valid() && UpTo(now)
      ensures |views| == 24
      ensures forall i :: 0 <= i < 24 ==>
                var h := ShownHour(now, i);
                views[i] == HourView(h, HourReplay(log, h, ref), Rate(HourReplay(log, h, ref)))
      ensures forall i :: 0 <= i < 24 ==>
                var own := OfHour(log, views[i].hour);
                && InHour(now + (i - 23) * 3_600_000_000_000, views[i].hour)
                && Holds(views[i].bucket, own, ref)
                && views[i].tokensPerSec ==
                   (if LocalGenMs(own) > 0 then LocalTokens(own) as real / (LocalGenMs(own) as real / 1000.0) else 0.0)
    {
      views := [];
      for i := 0 to 24
        invariant |views| == i
        invariant forall j :: 0 <= j < i ==>
                    var h := ShownHour(now, j);
                    views[j] == HourView(h, Lookup(hourly, h), Rate(Lookup(hourly, h)))
      {
        var key := ShownHour(now, i);
        var b := Zero;
        if key in hourly {
          b := hourly[key];
        }
        var rate := 0.0;
        if b.genMs > 0 {
          rate := b.tokens as real / (b.genMs as real / 1000.0);
        }
        views := views + [HourView(key, b, rate)];
      }
      forall i | 0 <= i < 24
        ensures
          var h := ShownHour(now, i);
          Lookup(hourly, h) == HourReplay(log, h, ref)
      {
        Last24HoursAreExact(log, now, i, ref);
      }
      forall i | 0 <= i < 24
        ensures Holds(HourReplay(log, ShownHour(now, i), ref), OfHour(log, ShownHour(now, i)), ref)
        ensures InHour(now + (i - 23) * 3_600_000_000_000, ShownHour(now, i))
      {
        HourFigures(log, ShownHour(now, i), ref);
        HourOfIsTheHour(now + (i - 23) * 3_600_000_000_000, ShownHour(now, i));
      }
    }

    /** Every model's totals, most requests first. */
    method TopModels() returns (stats: seq<ModelStat>)
      requires Valid()
      ensures forall i, j :: 0 <= i < j < |stats| ==> stats[i].local + stats[i].cloud >= stats[j].local + stats[j].cloud
      ensures |stats| == |byModel| && forall m <- byModel :: ModelReplay(log, m, ref) in stats
      ensures forall m :: m in byModel <==> exists e <- log :: e.model == m
      ensures forall m <- byModel :: ModelReplay(log, m, ref).model == m && HoldsForModel(ModelReplay(log, m, ref), OfModel(log, m), ref)
    {
      forall m <- byModel
        ensures byModel[m] == ModelReplay(log, m, ref) && byModel[m].model == m && HoldsForModel(byModel[m], OfModel(log, m), ref)
      {
        ModelsAreExact(log, m, ref);
        ModelFigures(log, m, ref);
      }
      forall m ensures m in byModel <==> exists e <- log :: e.model == m {
        ListedIffSeen(log, m, ref);
      }
      var list := ListModels(byModel);
      var a := new ModelStat[|list|](i requires 0 <= i < |list| => list[i]);
      assert a[..] == list;
      SortByRequests(a);
      stats := a[..];
      forall m <- byModel ensures byModel[m] in stats {
        assert byModel[m] in multiset(list);
        assert byModel[m] in multiset(a[..]);
      }
      assert |multiset(a[..])| == |a[..]|;
    }
  }

  method DropExpired(hourly: map<Hour, Bucket>, now: int) returns (left: map<Hour, Bucket>)
    ensures left == Fresh(hourly, now)
  {
    left := hourly;
    var todo := hourly.Keys;
    while todo != {}
      invariant todo <= hourly.Keys
      invariant forall h :: h in left <==> h in hourly && (h in todo || !Expired(h, now))
      invariant forall h <- left :: left[h] == hourly[h]
      decreases todo
    {
      var h :| h in todo;
      todo := todo - {h};
      if Expired(h, now) {
        left := left - {h};
      }
    }
    assert left.Keys == Fresh(hourly, now).Keys;
  }

  method ListModels(byModel: map<string, ModelStat>) returns (list: seq<ModelStat>)
    requires forall m <- byModel :: byModel[m].model == m
    ensures |list| == |byModel| && forall m <- byModel :: byModel[m] in list
  {
    list := [];
    var todo := byModel.Keys;
    while todo != {}
      invariant todo <= byModel.Keys && |list| + |todo| == |byModel|
      invariant forall m <- byModel :: m in todo || byModel[m] in list
      decreases todo
    {
      var m :| m in todo;
      todo := todo - {m};
      list := list + [byModel[m]];
    }
  }

  /** Nothing at or after `i` has more requests than anything before it. */
  predicate FrontSorted(s: seq<ModelStat>, i: nat) {
    forall p, q :: 0 <= p < q < |s| && p < i ==> Requests(s[p]) >= Requests(s[q])
  }

  /** The exchange sort of the model list. */
  method SortByRequests(a: array<ModelStat>)
    modifies a
    ensures FrontSorted(a[..], a.Length)
    ensures multiset(a[..]) == multiset(old(a[..]))
  {
    for i := 0 to a.Length
      invariant FrontSorted(a[..], i)
      invariant multiset(a[..]) == multiset(old(a[..]))
    {
      BringUpLargest(a, i);
    }
  }

  method BringUpLargest(a: array<ModelStat>, i: nat)
    requires i < a.Length && FrontSorted(a[..], i)
    modifies a
    ensures FrontSorted(a[..], i + 1)
    ensures multiset(a[..]) == multiset(old(a[..]))
  {
    for j := i + 1 to a.Length
      invariant FrontSorted(a[..], i)
      invariant Leads(a[..], i, j)
      invariant multiset(a[..]) == multiset(old(a[..]))
    {
      if Requests(a[j]) > Requests(a[i]) {
        SwapKeepsFront(a[..], i, j);
        Exchange(a, i, j);
      }
    }
  }

  method Exchange(a: array<ModelStat>, i: nat, j: nat)
    requires i < j < a.Length
    modifies a
    ensures a[..] == Swapped(old(a[..]), i, j)
    ensures multiset(a[..]) == multiset(old(a[..]))
  {
    a[i], a[j] := a[j], a[i];
  }

  function Swapped(s: seq<ModelStat>, i: nat, j: nat): seq<ModelStat>
    requires i < j < |s|
  {
    s[i := s[j]][j := s[i]]
  }

  predicate Leads(s: seq<ModelStat>, i: nat, j: nat)
    requires i < j <= |s|
  {
    forall q :: i < q < j ==> Requests(s[i]) >= Requests(s[q])
  }

  lemma SwapKeepsFront(s: seq<ModelStat>, i: nat, j: nat)
    requires i < j < |s| && FrontSorted(s, i) && Leads(s, i, j) && Requests(s[j]) > Requests(s[i])
    ensures FrontSorted(Swapped(s, i, j), i) && Leads(Swapped(s, i, j), i, j + 1)
  {
  }
}
