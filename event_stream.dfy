/** The generation loop of `Main.run`: a fixed number of iterations, each
    drawing a client, a domain (which also feeds the statistics) and the next
    event time, then appending one line to the access log. The pure functions
    `Step` and `Generate` say what the loop computes; the class `Generator`
    holds the shared `Stats` object and runs the loop in place. */
module EventStream {
  import opened JavaLang
  import opened Statistics
  import opened Sampling
  import opened Arrival

  /** What a run is given: the client pool, the ranked domains, the share of
      unknown sites, the baseline of the rate table, and the delay formula
      `(L, d) -> (long)(ln(1 - d) / -L)` as an opaque function. */
  datatype Config = Config(clientIps: seq<string>, options: seq<PageRankEntry>, pUnknown: real,
                           defaultMean: real, delay: (real, real) -> int)

  /** The configurations `run` can produce: the baseline is positive (the code
      fixes it at 20) and the delay is what the log formula gives for a
      positive rate, a non-negative number of milliseconds. */
  ghost predicate ValidConfig(cfg: Config) {
    cfg.defaultMean > 0.0 && DelayOfRate(cfg.delay)
  }

  /** The random draws of one iteration, in the order the loop takes them:
      the client position, the unknown-site draw, the rank draw (taken only
      on the ranked branch), the inter-arrival draw, and the faker's domain
      name (used only on the unknown branch). */
  datatype Draw = Draw(client: int, unknown: real, rank: real, interarrival: real, fakeDomain: string)

  /** What the random source guarantees of its draws: `nextInt(n)` lies in
      [0, n) and `nextDouble()` in [0, 1). */
  predicate ValidDraw(clients: nat, d: Draw) {
    && (clients > 0 ==> 0 <= d.client < clients)
    && 0.0 <= d.unknown < 1.0 && 0.0 <= d.rank < 1.0 && 0.0 <= d.interarrival < 1.0
  }

  predicate ValidDraws(clients: nat, draws: seq<Draw>) {
    forall k :: 0 <= k < |draws| ==> ValidDraw(clients, draws[k])
  }

  /** One synthetic access: never stored, only formatted. */
  datatype Event = Event(timestamp: int, clientIp: string, domain: string)

  /** The line appended for an event; `iso` stands for `String.valueOf` of a
      `LocalDateTime`. */
  function FormatLine(e: Event, iso: int -> string): (line: string)
    ensures |line| > 18 && line[..17] == "{ \"@timestamp\": \""
    ensures line[|line| - 4..] == "\" }\n"
  {
    "{ \"@timestamp\": \"" + iso(e.timestamp) + "\", \"clientIp\": \"" + e.clientIp
      + "\", \"domain\": \"" + e.domain + "\" }\n"
  }

  function Lines(events: seq<Event>, iso: int -> string): (ls: seq<string>)
    ensures |ls| == |events|
  {
    seq(|events|, k requires 0 <= k < |events| => FormatLine(events[k], iso))
  }

  /** The number of iterations of `for (int i = 0; i < iterations; i++)`. */
  function LoopCount(iterations: int): nat {
    if iterations > 0 then iterations else 0
  }

  /** The domain `computeDomain` returns, or the exception it throws: the
      faker's name below the unknown-site share, otherwise the domain at the
      drawn rank, which exists exactly when the ranking is non-empty. */
  function DomainOutcome(pUnknown: real, options: seq<PageRankEntry>, u: real, r: real, fake: string): (res: Result<string>)
    requires 0.0 <= r < 1.0
    ensures res.Failure? <==> !(u < pUnknown) && options == []
    ensures res.Failure? ==> res.error == IndexOutOfBounds
    ensures u < pUnknown ==> res == Success(fake)
    ensures res.Success? && !(u < pUnknown) ==> exists k :: 0 <= k < |options| && options[k].domain == res.value
  {
    match ChooseDomain(pUnknown, |options|, u, r, fake)
    case Unknown(name) => Success(name)
    case Ranked(i) => if i < |options| then Success(options[i].domain) else Failure(IndexOutOfBounds)
  }

  /** The state the loop carries: the events written so far, the pick
      counters, the clock, and the exception that ended the loop, if any. */
  datatype Trace = Trace(events: seq<Event>, counts: PickCounts, time: int, failure: Option<Exception>)

  /** One iteration of the loop: the client, then the domain (ranked picks
      are registered even when the list turns out to be empty), then the
      clock, then one event. An exception stops the iteration where it is
      thrown. */
  function Step(cfg: Config, tr: Trace, d: Draw): (r: Trace)
    requires ValidDraw(|cfg.clientIps|, d)
    ensures r.failure == Some(IllegalArgument) <==> cfg.clientIps == []
    ensures r.failure == Some(IndexOutOfBounds) <==>
      cfg.clientIps != [] && !(d.unknown < cfg.pUnknown) && cfg.options == []
    ensures r.failure.Some? ==> r.events == tr.events && r.time == tr.time
    ensures r.failure.None? ==>
      && |r.events| == |tr.events| + 1 && r.events[..|tr.events|] == tr.events
      && r.events[|tr.events|].timestamp == r.time
    ensures ValidConfig(cfg) && r.failure.None? ==> r.time >= tr.time
  {
    match ComputeClientIp(cfg.clientIps, d.client)
    case Failure(e) => tr.(failure := Some(e))
    case Success(ip) =>
      var counts := if d.unknown < cfg.pUnknown then tr.counts
                    else Tally(tr.counts, NextIndex(|cfg.options|, d.rank), |cfg.options|);
      match DomainOutcome(cfg.pUnknown, cfg.options, d.unknown, d.rank, d.fakeDomain)
      case Failure(e) => tr.(counts := counts, failure := Some(e))
      case Success(domain) =>
        var t := ComputeNextTime(tr.time, cfg.defaultMean, d.interarrival, cfg.delay);
        Trace(tr.events + [Event(t, ip, domain)], counts, t, None)
  }

  /** The loop over `draws`, from the clock `start` and the counters `c0`;
      after an exception nothing more happens. */
  function Generate(cfg: Config, start: int, c0: PickCounts, draws: seq<Draw>): (tr: Trace)
    requires ValidDraws(|cfg.clientIps|, draws)
    ensures |tr.events| <= |draws|
    ensures tr.failure.None? ==> |tr.events| == |draws|
    ensures draws == [] ==> tr == Trace([], c0, start, None)
  {
    if draws == [] then Trace([], c0, start, None)
    else
      var prev := Generate(cfg, start, c0, draws[..|draws| - 1]);
      if prev.failure.Some? then prev else Step(cfg, prev, draws[|draws| - 1])
  }

  /** The clock of a trace never went back: every event lies between the
      start and the current time, in non-decreasing order, and the last event
      carries the current time. */
  ghost predicate WellTimed(tr: Trace, start: int) {
    && start <= tr.time
    && (forall k :: 0 <= k < |tr.events| ==> start <= tr.events[k].timestamp <= tr.time)
    && (forall j, k :: 0 <= j <= k < |tr.events| ==> tr.events[j].timestamp <= tr.events[k].timestamp)
    && (tr.events != [] ==> tr.events[|tr.events| - 1].timestamp == tr.time)
  }

  /** A run writes one event per draw until an exception, and, for a valid
      configuration, its timestamps never decrease. */
  lemma {:induction false} GenerateShape(cfg: Config, start: int, c0: PickCounts, draws: seq<Draw>)
    requires ValidDraws(|cfg.clientIps|, draws)
    ensures var tr := Generate(cfg, start, c0, draws);
      && |tr.events| <= |draws|
      && (tr.failure.None? ==> |tr.events| == |draws|)
      && (ValidConfig(cfg) ==> WellTimed(tr, start))
  {
    if draws != [] {
      var front := draws[..|draws| - 1];
      GenerateShape(cfg, start, c0, front);
      var prev := Generate(cfg, start, c0, front);
      if prev.failure.None? && ValidConfig(cfg) {
        StepShape(cfg, prev, draws[|draws| - 1], start);
      }
    }
  }

  /** One iteration writes at most one event, exactly one when it throws
      nothing, and keeps the clock well-timed. */
  lemma StepShape(cfg: Config, tr: Trace, d: Draw, start: int)
    requires ValidDraw(|cfg.clientIps|, d)
    requires ValidConfig(cfg) && WellTimed(tr, start)
    ensures var r := Step(cfg, tr, d);
      && |r.events| <= |tr.events| + 1
      && (r.failure.None? ==> |r.events| == |tr.events| + 1)
      && WellTimed(r, start)
  {
    var r := Step(cfg, tr, d);
    if r.failure.None? {
      var e := r.events[|tr.events|];
      assert r.events == tr.events + [e];
      assert e.timestamp == r.time >= tr.time;
    }
  }

  /** One more draw is one more step, while no exception has been thrown. */
  lemma GenerateNext(cfg: Config, start: int, c0: PickCounts, draws: seq<Draw>, i: nat)
    requires ValidDraws(|cfg.clientIps|, draws)
    requires i < |draws|
    requires Generate(cfg, start, c0, draws[..i]).failure.None?
    ensures Generate(cfg, start, c0, draws[..i + 1]) == Step(cfg, Generate(cfg, start, c0, draws[..i]), draws[i])
  {
    assert draws[..i + 1][..i] == draws[..i];
  }

  /** Where the loop leaves off, the run over all its draws is complete:
      either every draw was taken or an exception stopped the run. */
  lemma LoopExit(cfg: Config, start: int, c0: PickCounts, draws: seq<Draw>, i: nat, n: nat)
    requires ValidDraws(|cfg.clientIps|, draws)
    requires i <= n <= |draws|
    requires i == n || Generate(cfg, start, c0, draws[..i]).failure.Some?
    ensures Generate(cfg, start, c0, draws[..n]) == Generate(cfg, start, c0, draws[..i])
  {
    if i < n {
      assert draws[..n][..i] == draws[..i];
      GenerateStops(cfg, start, c0, draws[..n], i);
    }
  }

  lemma LinesAppend(events: seq<Event>, e: Event, iso: int -> string)
    ensures Lines(events + [e], iso) == Lines(events, iso) + [FormatLine(e, iso)]
  {
  }

  /** A run stops at its first exception: later draws change nothing. */
  lemma {:induction false} GenerateStops(cfg: Config, start: int, c0: PickCounts, draws: seq<Draw>, i: nat)
    requires ValidDraws(|cfg.clientIps|, draws)
    requires i <= |draws|
    requires Generate(cfg, start, c0, draws[..i]).failure.Some?
    ensures Generate(cfg, start, c0, draws) == Generate(cfg, start, c0, draws[..i])
    decreases |draws| - i
  {
    if i < |draws| {
      var front := draws[..|draws| - 1];
      assert front[..i] == draws[..i];
      GenerateStops(cfg, start, c0, front, i);
    } else {
      assert draws[..i] == draws;
    }
  }

  /** Which runs fail and how: an empty client pool fails on the first
      iteration before anything is written or counted; an empty ranking
      fails on the first ranked pick, after counting it; with both
      non-empty a run never fails. */
  lemma {:induction false} GenerateFailures(cfg: Config, start: int, c0: PickCounts, draws: seq<Draw>)
    requires ValidDraws(|cfg.clientIps|, draws)
    ensures var tr := Generate(cfg, start, c0, draws);
      && (cfg.clientIps != [] && cfg.options != [] ==> tr.failure.None?)
      && (cfg.clientIps == [] && draws != [] ==>
            tr.failure == Some(IllegalArgument) && tr.events == [] && tr.counts == c0 && tr.time == start)
      && (tr.failure == Some(IndexOutOfBounds) ==> cfg.options == [] && cfg.clientIps != [])
      && (tr.failure.Some? ==> tr.failure == Some(IllegalArgument) || tr.failure == Some(IndexOutOfBounds))
  {
    if draws != [] {
      GenerateFailures(cfg, start, c0, draws[..|draws| - 1]);
    }
  }

  /** Every event was made from the draw at its own position: its client is
      the one that draw selects from the pool and its domain the one
      `computeDomain` returns for it. */
  lemma {:induction false} GenerateFollowsDraws(cfg: Config, start: int, c0: PickCounts, draws: seq<Draw>)
    requires ValidDraws(|cfg.clientIps|, draws)
    ensures var tr := Generate(cfg, start, c0, draws);
      && |tr.events| <= |draws|
      && forall k :: 0 <= k < |tr.events| ==>
           && ComputeClientIp(cfg.clientIps, draws[k].client) == Success(tr.events[k].clientIp)
           && DomainOutcome(cfg.pUnknown, cfg.options, draws[k].unknown, draws[k].rank, draws[k].fakeDomain)
              == Success(tr.events[k].domain)
  {
    if draws != [] {
      var front, d := draws[..|draws| - 1], draws[|draws| - 1];
      GenerateFollowsDraws(cfg, start, c0, front);
      var prev := Generate(cfg, start, c0, front);
      if prev.failure.None? {
        var tr := Step(cfg, prev, d);
        forall k | 0 <= k < |tr.events|
          ensures ComputeClientIp(cfg.clientIps, draws[k].client) == Success(tr.events[k].clientIp)
          ensures DomainOutcome(cfg.pUnknown, cfg.options, draws[k].unknown, draws[k].rank, draws[k].fakeDomain)
                  == Success(tr.events[k].domain)
        {
          if k < |prev.events| {
            assert tr.events[k] == tr.events[..|prev.events|][k] == prev.events[k];
            assert draws[k] == front[k];
          } else {
            assert draws[k] == d;
            StepEvent(cfg, prev, d);
          }
        }
      }
    }
  }

  /** The event one iteration appends was made from its draw. */
  lemma StepEvent(cfg: Config, tr: Trace, d: Draw)
    requires ValidDraw(|cfg.clientIps|, d)
    requires Step(cfg, tr, d).failure.None?
    ensures var e := Step(cfg, tr, d).events[|tr.events|];
      && ComputeClientIp(cfg.clientIps, d.client) == Success(e.clientIp)
      && DomainOutcome(cfg.pUnknown, cfg.options, d.unknown, d.rank, d.fakeDomain) == Success(e.domain)
  {
  }

  /** The ranked picks a run registers, in order: one per draw at or above
      the unknown-site share. */
  function RankedPicks(cfg: Config, draws: seq<Draw>): (picks: seq<int>)
    requires ValidDraws(|cfg.clientIps|, draws)
    ensures |picks| <= |draws|
  {
    if draws == [] then []
    else
      var d := draws[|draws| - 1];
      RankedPicks(cfg, draws[..|draws| - 1])
        + (if d.unknown < cfg.pUnknown then [] else [NextIndex(|cfg.options|, d.rank)])
  }

  /** The counters after one iteration: a ranked pick is registered once
      the client has been chosen, an unknown site registers nothing. */
  lemma StepCounts(cfg: Config, tr: Trace, d: Draw)
    requires ValidDraw(|cfg.clientIps|, d)
    ensures Step(cfg, tr, d).counts ==
      if cfg.clientIps == [] || d.unknown < cfg.pUnknown then tr.counts
      else Tally(tr.counts, NextIndex(|cfg.options|, d.rank), |cfg.options|)
  {
  }

  /** The statistics of a run that did not fail are those of registering its
      ranked picks one after another; whatever happens, the bucket order of
      the counters is kept. */
  lemma {:induction false} GenerateTallies(cfg: Config, start: int, c0: PickCounts, draws: seq<Draw>)
    requires ValidDraws(|cfg.clientIps|, draws)
    ensures var tr := Generate(cfg, start, c0, draws);
      && (tr.failure.None? ==> tr.counts == TallyAll(c0, RankedPicks(cfg, draws), |cfg.options|))
      && (Ordered(c0) ==> Ordered(tr.counts))
      && tr.counts.picks >= c0.picks
  {
    if draws != [] {
      var front, d := draws[..|draws| - 1], draws[|draws| - 1];
      GenerateTallies(cfg, start, c0, front);
      var prev := Generate(cfg, start, c0, front);
      if prev.failure.None? {
        StepCounts(cfg, prev, d);
        var tr := Step(cfg, prev, d);
        assert Generate(cfg, start, c0, draws) == tr;
        if !(d.unknown < cfg.pUnknown) {
          var pick := NextIndex(|cfg.options|, d.rank);
          var picks := RankedPicks(cfg, front) + [pick];
          assert RankedPicks(cfg, draws) == picks;
          assert picks[..|picks| - 1] == RankedPicks(cfg, front);
          assert TallyAll(c0, picks, |cfg.options|) == Tally(TallyAll(c0, RankedPicks(cfg, front), |cfg.options|), pick, |cfg.options|);
        } else {
          assert RankedPicks(cfg, draws) == RankedPicks(cfg, front);
        }
      }
    }
  }

  /** With no unknown sites every draw is a ranked pick; with an unknown-site
      share of one or more none is. */
  lemma {:induction false} RankedPicksExtremes(cfg: Config, draws: seq<Draw>)
    requires ValidDraws(|cfg.clientIps|, draws)
    ensures cfg.pUnknown <= 0.0 ==> |RankedPicks(cfg, draws)| == |draws|
    ensures cfg.pUnknown >= 1.0 ==> RankedPicks(cfg, draws) == []
  {
    if draws != [] {
      RankedPicksExtremes(cfg, draws[..|draws| - 1]);
    }
  }

  /** The number of newline characters in a text. */
  function Newlines(s: string): nat {
    if s == [] then 0 else Newlines(s[..|s| - 1]) + (if s[|s| - 1] == '\n' then 1 else 0)
  }

  predicate NoNewline(s: string) {
    forall k :: 0 <= k < |s| ==> s[k] != '\n'
  }

  /** The text of the log: its lines one after another. */
  function Concat(ls: seq<string>): string {
    if ls == [] then "" else Concat(ls[..|ls| - 1]) + ls[|ls| - 1]
  }

  lemma {:induction false} NewlinesAppend(a: string, b: string)
    ensures Newlines(a + b) == Newlines(a) + Newlines(b)
    decreases |b|
  {
    if b != [] {
      assert (a + b)[..|a + b| - 1] == a + b[..|b| - 1];
      NewlinesAppend(a, b[..|b| - 1]);
    } else {
      assert a + b == a;
    }
  }

  lemma {:induction false} NoNewlineCount(s: string)
    requires NoNewline(s)
    ensures Newlines(s) == 0
  {
    if s != [] {
      NoNewlineCount(s[..|s| - 1]);
    }
  }

  /** A line holds exactly one newline, at its end, when the timestamp text,
      the client and the domain hold none. */
  lemma FormatLineOneNewline(e: Event, iso: int -> string)
    requires NoNewline(iso(e.timestamp)) && NoNewline(e.clientIp) && NoNewline(e.domain)
    ensures Newlines(FormatLine(e, iso)) == 1
    ensures FormatLine(e, iso)[|FormatLine(e, iso)| - 1] == '\n'
  {
    var body := "{ \"@timestamp\": \"" + iso(e.timestamp) + "\", \"clientIp\": \"" + e.clientIp
      + "\", \"domain\": \"" + e.domain + "\" }";
    assert FormatLine(e, iso) == body + "\n";
    assert NoNewline(body);
    NoNewlineCount(body);
    NewlinesAppend(body, "\n");
    assert Newlines("\n") == 1 by {
      assert "\n"[..0] == "";
    }
  }

  /** The log text has exactly one line per event. */
  lemma {:induction false} LogLineCount(events: seq<Event>, iso: int -> string)
    requires forall t :: NoNewline(iso(t))
    requires forall k :: 0 <= k < |events| ==> NoNewline(events[k].clientIp) && NoNewline(events[k].domain)
    ensures Newlines(Concat(Lines(events, iso))) == |events|
  {
    if events != [] {
      var front := events[..|events| - 1];
      assert Lines(events, iso)[..|events| - 1] == Lines(front, iso);
      LogLineCount(front, iso);
      NewlinesAppend(Concat(Lines(front, iso)), FormatLine(events[|events| - 1], iso));
      FormatLineOneNewline(events[|events| - 1], iso);
    }
  }

  /** `Main`, reduced to the state the generation loop touches: the shared
      statistics object. */
  class Generator {
    const stats: Stats

    constructor ()
      ensures fresh(stats) && stats.Counts() == Zero
      ensures stats.startTime == None && stats.endTime == None
    {
      stats := new Stats();
    }

    /** `computeDomain`: below the unknown-site share the faker's name, with
        the statistics untouched; otherwise exactly one `registerPick` with
        the drawn index and the list size, then the domain at that index (or
        IndexOutOfBounds for an empty list). */
    method ComputeDomain(pUnknown: real, options: seq<PageRankEntry>, u: real, r: real, fake: string)
      returns (res: Result<string>)
      requires 0.0 <= r < 1.0
      modifies stats`picks, stats`top10, stats`top100, stats`top1000, stats`quartile, stats`half
      ensures res == DomainOutcome(pUnknown, options, u, r, fake)
      ensures u < pUnknown ==> stats.Counts() == old(stats.Counts())
      ensures !(u < pUnknown) ==> stats.Counts() == Tally(old(stats.Counts()), NextIndex(|options|, r), |options|)
    {
      if u < pUnknown {
        res := Success(fake);
      } else {
        var pick := NextIndex(|options|, r);
        stats.RegisterPick(pick, |options|);
        if pick < |options| {
          res := Success(options[pick].domain);
        } else {
          res := Failure(IndexOutOfBounds);
        }
      }
    }

    /** One iteration of the loop (lines 86-88): the client, the domain, which
        may register a pick, and the next clock. The event is returned when
        nothing was thrown; it is exactly what `Step` appends. */
    method Iteration(cfg: Config, d: Draw, eventTime: int, ghost events: seq<Event>)
      returns (e: Option<Event>, failure: Option<Exception>, nextTime: int)
      requires ValidDraw(|cfg.clientIps|, d)
      modifies stats`picks, stats`top10, stats`top100, stats`top1000, stats`quartile, stats`half
      ensures e.Some? <==> failure.None?
      ensures Step(cfg, Trace(events, old(stats.Counts()), eventTime, None), d)
        == Trace(if e.Some? then events + [e.value] else events, stats.Counts(), nextTime, failure)
    {
      e, failure, nextTime := None, None, eventTime;
      var ip := ComputeClientIp(cfg.clientIps, d.client);
      if ip.Failure? {
        failure := Some(ip.error);
        return;
      }
      var domain := ComputeDomain(cfg.pUnknown, cfg.options, d.unknown, d.rank, d.fakeDomain);
      if domain.Failure? {
        failure := Some(domain.error);
      } else {
        nextTime := ComputeNextTime(eventTime, cfg.defaultMean, d.interarrival, cfg.delay);
        e := Some(Event(nextTime, ip.value, domain.value));
      }
    }

    /** The loop of `run`: one event per draw until the iterations are used
        up or a draw throws. It follows `Generate` step by step. */
    method EmitEvents(cfg: Config, iterations: int, startTime: int, draws: seq<Draw>, iso: int -> string)
      returns (lines: seq<string>, failure: Option<Exception>, eventTime: int)
      requires iterations <= |draws|
      requires ValidDraws(|cfg.clientIps|, draws)
      modifies stats`picks, stats`top10, stats`top100, stats`top1000, stats`quartile, stats`half
      ensures var tr := Generate(cfg, startTime, old(stats.Counts()), draws[..LoopCount(iterations)]);
        && lines == Lines(tr.events, iso) && failure == tr.failure && stats.Counts() == tr.counts
        && eventTime == tr.time
    {
      ghost var c0 := stats.Counts();
      ghost var events: seq<Event> := [];
      ghost var n := LoopCount(iterations);
      lines, failure, eventTime := [], None, startTime;
      var i := 0;
      while i < iterations && failure.None?
        invariant 0 <= i <= n
        invariant Generate(cfg, startTime, c0, draws[..i]) == Trace(events, stats.Counts(), eventTime, failure)
        invariant lines == Lines(events, iso)
      {
        ghost var pre := Trace(events, stats.Counts(), eventTime, None);
        assert Generate(cfg, startTime, c0, draws[..i + 1]) == Step(cfg, pre, draws[i]) by {
          GenerateNext(cfg, startTime, c0, draws, i);
        }
        var e;
        e, failure, eventTime := Iteration(cfg, draws[i], eventTime, events);
        if e.Some? {
          LinesAppend(events, e.value, iso);
          lines := lines + [FormatLine(e.value, iso)];
          events := events + [e.value];
        }
        i := i + 1;
      }
      LoopExit(cfg, startTime, c0, draws, i, n);
    }

    /** Lines 74-99 of `run`: record the configuration in the statistics,
        then, unless the log already exists, run the loop and record the
        final clock. The result is the log's lines and the exception that
        aborted the run, if any (the lines written before it stay written). */
    method Run(cfg: Config, iterations: int, startTime: int, outputExists: bool, draws: seq<Draw>, iso: int -> string)
      returns (lines: seq<string>, failure: Option<Exception>)
      requires iterations <= |draws|
      requires ValidDraws(|cfg.clientIps|, draws)
      modifies stats`picks, stats`top10, stats`top100, stats`top1000, stats`quartile, stats`half
      modifies stats`percentUnknownSites, stats`startTime, stats`endTime
      ensures stats.percentUnknownSites == cfg.pUnknown && stats.startTime == Some(startTime)
      ensures outputExists ==>
        lines == [] && failure.None? && stats.Counts() == old(stats.Counts()) && stats.endTime == Some(startTime)
      ensures !outputExists ==>
        var tr := Generate(cfg, startTime, old(stats.Counts()), draws[..LoopCount(iterations)]);
        && lines == Lines(tr.events, iso) && failure == tr.failure && stats.Counts() == tr.counts
        && stats.endTime == (if failure.None? then Some(tr.time) else old(stats.endTime))
      ensures !outputExists && failure.None? ==> |lines| == LoopCount(iterations)
      ensures failure.None? ==> stats.endTime.Some?
      ensures ValidConfig(cfg) && failure.None? ==> stats.endTime.Some? && stats.endTime.value >= startTime
      ensures cfg.clientIps != [] && cfg.options != [] ==> failure.None?
    {
      stats.percentUnknownSites := cfg.pUnknown;
      var eventTime := startTime;
      stats.startTime := Some(eventTime);
      lines, failure := [], None;
      if !outputExists {
        GenerateShape(cfg, startTime, stats.Counts(), draws[..LoopCount(iterations)]);
        GenerateFailures(cfg, startTime, stats.Counts(), draws[..LoopCount(iterations)]);
        lines, failure, eventTime := EmitEvents(cfg, iterations, startTime, draws, iso);
      }
      if failure.None? {
        stats.endTime := Some(eventTime);
      }
    }
  }
}
