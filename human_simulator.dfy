/**
 * The human-behaviour engine: per-gesture jitter (HumanBehavior) and the
 * session pacer that scales delays by fatigue and schedules breaks
 * (TimingVariation).  The clock and every random draw are parameters:
 * `now` stands for `time.time()`, a draw `u` in [0, 1] for
 * `random.random()` inside `random.uniform`, and a free real for a draw of
 * `np.random.normal`.
 */
module HumanSimulator {
  import opened Common
  import opened Settings

  // ---------------------------------------------------------------------
  // HumanBehavior
  // ---------------------------------------------------------------------

  /** numpy refuses a normal distribution with a negative scale, and
      `time.sleep` refuses a negative length; both raise `ValueError`. */
  datatype DelayError = NegativeScale | NegativeSleep

  /** `human_delay`: the number of milliseconds it sleeps.  The normal
      branch draws around the midpoint with a sixth of the range as
      standard deviation and clips; any other distribution name is uniform.
      The chosen length is then slept, which fails when it is negative. */
  function HumanDelayMs(minMs: real, maxMs: real, distribution: string,
                        normalDraw: real, uniformDraw: real): (r: Result<real, DelayError>)
    requires 0.0 <= uniformDraw <= 1.0
    ensures r == Failure(NegativeScale) <==> distribution == "normal" && maxMs < minMs
    ensures r == Failure(NegativeSleep) ==> MinReal(minMs, maxMs) < 0.0
    ensures 0.0 <= minMs && 0.0 <= maxMs && r != Failure(NegativeScale) ==> r.Success?
    ensures r.Success? ==> 0.0 <= r.value
    ensures r.Success? && minMs <= maxMs ==> minMs <= r.value <= maxMs
    ensures r.Success? && maxMs < minMs ==> maxMs <= r.value <= minMs
    ensures distribution == "normal" && 0.0 <= minMs <= normalDraw <= maxMs ==> r == Success(normalDraw)
  {
    var chosen :=
      if distribution == "normal" then
        var stdDev := (maxMs - minMs) / 6.0;
        if stdDev < 0.0 then Failure(NegativeScale)
        else Success(ClipReal(normalDraw, minMs, maxMs))
      else
        Success(Uniform(minMs, maxMs, uniformDraw));
    if chosen.Success? && chosen.value < 0.0 then Failure(NegativeSleep) else chosen
  }

  /** Distance kept from an element's edge by `human_click`. */
  const ClickMargin := 5

  /** One axis of `human_click`: the normal draw is truncated by `int(...)`
      and clipped into `[-size//2 + 5, size//2 - 5]`, where the unary minus
      binds before `//`.  Offsets are measured from the element's centre. */
  function ClickOffset(size: int, draw: real): (offset: int)
    ensures 10 <= size ==> FloorDiv(-size, 2) + ClickMargin <= offset <= FloorDiv(size, 2) - ClickMargin
    ensures 10 <= size ==> 2 * ClickMargin - 1 <= size + 2 * offset && 2 * ClickMargin <= size - 2 * offset
    ensures size < 10 ==> offset == FloorDiv(size, 2) - ClickMargin
  {
    ClipInt(TruncToInt(draw), FloorDiv(-size, 2) + ClickMargin, FloorDiv(size, 2) - ClickMargin)
  }

  /** The offset pair of `human_click` for an element of the given size. */
  function ClickOffsets(width: int, height: int, drawX: real, drawY: real): (offsets: (int, int))
    ensures 10 <= width ==> FloorDiv(-width, 2) + ClickMargin <= offsets.0 <= FloorDiv(width, 2) - ClickMargin
    ensures 10 <= height ==> FloorDiv(-height, 2) + ClickMargin <= offsets.1 <= FloorDiv(height, 2) - ClickMargin
  {
    (ClickOffset(width, drawX), ClickOffset(height, drawY))
  }

  /** A draw that already lies within the clip bounds is used as it is,
      truncated toward zero. */
  lemma ClickOffsetKeepsInnerDraw(size: int, draw: real)
    requires FloorDiv(-size, 2) + ClickMargin <= TruncToInt(draw) <= FloorDiv(size, 2) - ClickMargin
    ensures ClickOffset(size, draw) == TruncToInt(draw)
  {
  }

  /** For odd sizes the clip range is not symmetric: the lower bound is one
      pixel further from the centre than the upper one. */
  lemma ClickBoundsAsymmetric(k: int)
    requires 5 <= k
    ensures FloorDiv(-(2 * k + 1), 2) + ClickMargin == -(FloorDiv(2 * k + 1, 2) - ClickMargin) - 1
    ensures FloorDiv(-(2 * k), 2) + ClickMargin == -(FloorDiv(2 * k, 2) - ClickMargin)
  {
    assert FloorDiv(-(2 * k + 1), 2) == -k - 1;
    assert FloorDiv(2 * k + 1, 2) == k;
    assert FloorDiv(-(2 * k), 2) == -k;
    assert FloorDiv(2 * k, 2) == k;
  }

  /** Below ten pixels the clip bounds cross and every offset becomes the
      upper bound; for sizes up to five it lies outside the element. */
  lemma TinyElementClickLeavesElement(size: int, draw: real)
    requires 1 <= size <= 5
    ensures size + 2 * ClickOffset(size, draw) < 0
  {
    assert FloorDiv(size, 2) <= 2;
  }

  /** The signed distance of `human_scroll`: the requested `amount`, or the
      draw of `random.randint(100, 500)` when none is given, negated unless
      the direction is "down". */
  function ScrollAmount(direction: string, amount: Option<int>, randomAmount: int): int
  {
    var a := if amount.None? then randomAmount else amount.value;
    if direction == "down" then a else -a
  }

  function Sum(s: seq<int>): int
  {
    if s == [] then 0 else Sum(s[..|s| - 1]) + s[|s| - 1]
  }

  /** `human_scroll`: the pixel deltas it sends, one per step.  Each step is
      `scroll_amount // steps`, so the total is floored rather than exact. */
  method HumanScroll(direction: string, amount: Option<int>, randomAmount: int, steps: int)
    returns (deltas: seq<int>)
    requires amount.None? ==> 100 <= randomAmount <= 500
    requires 2 <= steps <= 5
    ensures |deltas| == steps
    ensures forall i :: 0 <= i < |deltas| ==> deltas[i] == FloorDiv(ScrollAmount(direction, amount, randomAmount), steps)
    ensures Sum(deltas) <= ScrollAmount(direction, amount, randomAmount) < Sum(deltas) + steps
    ensures var requested := if amount.None? then randomAmount else amount.value;
      if direction == "down" then requested - steps < Sum(deltas) <= requested
      else requested <= -Sum(deltas) < requested + steps
  {
    var scrollAmount := ScrollAmount(direction, amount, randomAmount);
    var scrollPerStep := FloorDiv(scrollAmount, steps);
    deltas := [];
    for i := 0 to steps
      invariant |deltas| == i
      invariant forall k :: 0 <= k < i ==> deltas[k] == scrollPerStep
      invariant Sum(deltas) == i * scrollPerStep
    {
      assert (deltas + [scrollPerStep])[..i] == deltas;
      deltas := deltas + [scrollPerStep];
    }
  }

  /** Probability with which `random_mouse_movement` moves the cursor. */
  const MoveChance := 0.3

  /** `random_mouse_movement`: the offset it moves by, if it moves; the
      offsets are the `random.randint` draws for the chosen mode. */
  function RandomMouseMovement(small: bool, r: real, dx: int, dy: int): (move: Option<(int, int)>)
    requires 0.0 <= r < 1.0
    requires small ==> -50 <= dx <= 50 && -30 <= dy <= 30
    requires !small ==> -200 <= dx <= 200 && -100 <= dy <= 100
    ensures move.Some? <==> r < MoveChance
    ensures move.Some? ==> -200 <= move.value.0 <= 200 && -100 <= move.value.1 <= 100
    ensures move.Some? && small ==> -50 <= move.value.0 <= 50 && -30 <= move.value.1 <= 30
  {
    if r < MoveChance then Some((dx, dy)) else None
  }

  const TypoChance := 0.05
  const Backspace: char := 8 as char

  /** `typo_simulation`: with a draw below 5% a lower-case letter and a
      backspace are appended. */
  function TypoSimulation(text: string, r: real, typoChar: char): (typed: string)
    requires 0.0 <= r < 1.0
    requires 'a' <= typoChar <= 'z'
    ensures typed != text <==> r < TypoChance
    ensures |text| <= |typed| && typed[..|text|] == text
    ensures typed != text ==> typed[|text|..] == [typoChar, Backspace]
  {
    if r < TypoChance then text + [typoChar] + [Backspace] else text
  }

  /** What a text field shows after receiving `keys`, a backspace deleting
      the character before it. */
  function Rendered(keys: string): string
  {
    if keys == [] then []
    else
      var shown := Rendered(keys[..|keys| - 1]);
      if keys[|keys| - 1] == Backspace then
        (if shown == [] then [] else shown[..|shown| - 1])
      else shown + [keys[|keys| - 1]]
  }

  /** A simulated typo is corrected by its own backspace: the field shows
      exactly the intended text. */
  lemma {:induction false} TypoIsCorrected(text: string, r: real, typoChar: char)
    requires 0.0 <= r < 1.0
    requires 'a' <= typoChar <= 'z'
    ensures Rendered(TypoSimulation(text, r, typoChar)) == Rendered(text)
  {
    if r < TypoChance {
      var typed := text + [typoChar] + [Backspace];
      assert typed[..|typed| - 1] == text + [typoChar];
      assert (text + [typoChar])[..|text|] == text;
      assert Rendered(text + [typoChar]) == Rendered(text) + [typoChar];
    }
  }

  /** Probability of `occasional_mistake`. */
  const MistakeChance := 0.03

  function OccasionalMistake(r: real): bool
    requires 0.0 <= r < 1.0
  {
    r < MistakeChance
  }

  // ---------------------------------------------------------------------
  // TimingVariation
  // ---------------------------------------------------------------------

  datatype ActionRecord = ActionRecord(time: real, actionType: string, delay: real)

  /** Number of records `action_history` keeps. */
  const HistoryLimit := 100

  const KnownActionTypes := {"click", "battle", "reading", "summon", "results", "navigation"}

  /** The base delay range, in seconds, of an action category. */
  function DelayRange(cfg: SafetyConfig, actionType: string): (range: (real, real))
    ensures actionType == "click" ==> range == (cfg.minClickDelay, cfg.maxClickDelay)
    ensures actionType != "click" ==> 0.3 <= range.0 <= range.1 <= 3.0
    ensures actionType !in KnownActionTypes ==> range == (0.3, 0.8)
  {
    var ranges := map[
      "click" := (cfg.minClickDelay, cfg.maxClickDelay),
      "battle" := (0.3, 0.8),
      "reading" := (1.0, 3.0),
      "summon" := (0.5, 1.5),
      "results" := (0.8, 2.0),
      "navigation" := (0.4, 1.0)];
    if actionType in ranges then ranges[actionType] else (0.3, 0.8)
  }

  /** The time part of `_calculate_fatigue`: 5% per hour, capped at 1.25. */
  function TimeFatigue(elapsed: real): real
  {
    var hours := elapsed / 3600.0;
    MinReal(1.25, 1.0 + hours * 0.05)
  }

  /** The count part of `_calculate_fatigue`, applied past 500 actions:
      0.01% per action, capped at 1.1. */
  function CountFatigue(count: int): real
  {
    MinReal(1.1, 1.0 + (count - 500) as real / 10000.0)
  }

  /** `_calculate_fatigue` for a session `elapsed` seconds old with `count`
      actions so far. */
  function Fatigue(cfg: SafetyConfig, elapsed: real, count: int): real
  {
    if !cfg.enableFatigue then 1.0
    else if count > 500 then TimeFatigue(elapsed) * CountFatigue(count)
    else TimeFatigue(elapsed)
  }

  /** Fatigue is exactly 1 when disabled and otherwise between 1 and the
      product of the two caps, 1.25 * 1.1. */
  lemma FatigueRange(cfg: SafetyConfig, elapsed: real, count: int)
    ensures !cfg.enableFatigue ==> Fatigue(cfg, elapsed, count) == 1.0
    ensures 0.0 <= elapsed ==> 1.0 <= Fatigue(cfg, elapsed, count) <= 1.25 * 1.1
  {
    if cfg.enableFatigue && count > 500 && 0.0 <= elapsed {
      var t, c := TimeFatigue(elapsed), CountFatigue(count);
      assert 1.0 <= t <= 1.25 && 1.0 <= c <= 1.1;
      MulMono(1.0, t, 1.0, c);
      MulMono(t, 1.25, c, 1.1);
    }
  }

  lemma FatigueAtStart(cfg: SafetyConfig, count: int)
    requires count <= 500
    ensures Fatigue(cfg, 0.0, count) == 1.0
  {
  }

  /** The time factor is linear up to its cap: 1.10 after two hours, 1.25
      from five hours on. */
  lemma FatigueTimeCurve(cfg: SafetyConfig, count: int, elapsed: real)
    requires cfg.enableFatigue && count <= 500
    ensures Fatigue(cfg, 7200.0, count) == 1.1
    ensures 18000.0 <= elapsed ==> Fatigue(cfg, elapsed, count) == 1.25
    ensures 0.0 <= elapsed <= 18000.0 ==> Fatigue(cfg, elapsed, count) == 1.0 + elapsed / 72000.0
  {
  }

  /** The most a session can slow down: both caps reached. */
  lemma FatigueMaximum(cfg: SafetyConfig, elapsed: real, count: int)
    requires cfg.enableFatigue && 18000.0 <= elapsed && 1500 <= count
    ensures Fatigue(cfg, elapsed, count) == 1.375
  {
  }

  lemma FatigueMonotoneInTime(cfg: SafetyConfig, e1: real, e2: real, count: int)
    requires 0.0 <= e1 <= e2
    ensures Fatigue(cfg, e1, count) <= Fatigue(cfg, e2, count)
  {
    assert e1 / 3600.0 <= e2 / 3600.0;
    assert TimeFatigue(e1) <= TimeFatigue(e2);
    if cfg.enableFatigue && count > 500 {
      ProductsOrdered(Fatigue(cfg, e1, count), Fatigue(cfg, e2, count),
                      CountFatigue(count), TimeFatigue(e1), TimeFatigue(e2));
    }
  }

  lemma FatigueMonotoneInCount(cfg: SafetyConfig, elapsed: real, n1: int, n2: int)
    requires 0.0 <= elapsed && n1 <= n2
    ensures Fatigue(cfg, elapsed, n1) <= Fatigue(cfg, elapsed, n2)
  {
    if cfg.enableFatigue && n2 > 500 {
      var t := TimeFatigue(elapsed);
      assert 1.0 <= t;
      if n1 > 500 {
        assert CountFatigue(n1) <= CountFatigue(n2);
        ProductsOrdered(Fatigue(cfg, elapsed, n1), Fatigue(cfg, elapsed, n2), t, CountFatigue(n1), CountFatigue(n2));
      } else {
        ProductsOrdered(Fatigue(cfg, elapsed, n1), Fatigue(cfg, elapsed, n2), t, 1.0, CountFatigue(n2));
      }
    }
  }

  /** `x = t * c1` and `y = t * c2` are ordered like `c1` and `c2` when the
      common factor is non-negative. */
  lemma ProductsOrdered(x: real, y: real, t: real, c1: real, c2: real)
    requires x == t * c1 && y == t * c2 && 0.0 <= t && c1 <= c2
    ensures x <= y
  {
  }

  /** The two draws of `get_delay`: `baseDelay` from
      `random.uniform(min_delay, max_delay)` for the category's range and
      `jitter` from `random.uniform(1 - variance, 1 + variance)`. */
  predicate DelayDraws(cfg: SafetyConfig, actionType: string, baseDelay: real, jitter: real) {
    var range := DelayRange(cfg, actionType);
    && DrawnFrom(baseDelay, range.0, range.1)
    && DrawnFrom(jitter, 1.0 - cfg.randomVariance, 1.0 + cfg.randomVariance)
  }

  /** The delay `get_delay` returns: the base delay times the fatigue,
      times the jitter. */
  function ActionDelay(baseDelay: real, fatigue: real, jitter: real): real
  {
    baseDelay * fatigue * jitter
  }

  /** With sane settings and a non-negative fatigue (`FatigueRange` shows
      every fatigue is at least 1) the delay lies between the category's
      bounds scaled by the fatigue and the extreme jitters, so it is never
      negative. */
  lemma ActionDelayBounds(cfg: SafetyConfig, actionType: string, baseDelay: real, fatigue: real, jitter: real)
    requires DelayDraws(cfg, actionType, baseDelay, jitter)
    requires SaneDelays(cfg) && 0.0 <= fatigue
    ensures DelayRange(cfg, actionType).0 * fatigue * (1.0 - cfg.randomVariance)
            <= ActionDelay(baseDelay, fatigue, jitter)
            <= DelayRange(cfg, actionType).1 * fatigue * (1.0 + cfg.randomVariance)
    ensures 0.0 <= ActionDelay(baseDelay, fatigue, jitter)
  {
    var range := DelayRange(cfg, actionType);
    var v := cfg.randomVariance;
    DrawsOrdered(cfg, actionType, baseDelay, jitter);
    ScaledBetween(range.0, baseDelay, range.1, fatigue, 1.0 - v, jitter, 1.0 + v,
                  range.0 * fatigue * (1.0 - v), ActionDelay(baseDelay, fatigue, jitter),
                  range.1 * fatigue * (1.0 + v));
  }

  /** Under sane settings both draws of `get_delay` are non-negative and
      lie between ordered bounds. */
  lemma DrawsOrdered(cfg: SafetyConfig, actionType: string, baseDelay: real, jitter: real)
    requires DelayDraws(cfg, actionType, baseDelay, jitter) && SaneDelays(cfg)
    ensures 0.0 <= DelayRange(cfg, actionType).0 <= baseDelay <= DelayRange(cfg, actionType).1
    ensures 0.0 <= 1.0 - cfg.randomVariance <= jitter <= 1.0 + cfg.randomVariance
  {
  }

  /** A product `mid` of three non-negative factors, each between its
      bounds, lies between the products `low` and `high` of the bounds. */
  lemma ScaledBetween(lo: real, b: real, hi: real, f: real, jlo: real, j: real, jhi: real,
                      low: real, mid: real, high: real)
    requires 0.0 <= lo <= b <= hi && 0.0 <= f && 0.0 <= jlo <= j <= jhi
    requires low == lo * f * jlo && mid == b * f * j && high == hi * f * jhi
    ensures low <= mid <= high && 0.0 <= mid
  {
    ProductLower(lo, b, f, jlo, j);
    ProductLower(b, hi, f, j, jhi);
    ProductLower(0.0, b, f, 0.0, j);
  }

  /** Scaling two ordered non-negative quantities by the same non-negative
      factor and then by ordered non-negative factors keeps them ordered. */
  lemma ProductLower(a: real, b: real, f: real, c: real, d: real)
    requires 0.0 <= a <= b && 0.0 <= f && 0.0 <= c <= d
    ensures a * f * c <= b * f * d
  {
    MulMono(a, b, f, f);
    MulMono(a * f, b * f, c, d);
  }

  /** The window `action_history` keeps of a full log of actions: its last
      `HistoryLimit` records. */
  function Recent(log: seq<ActionRecord>): (window: seq<ActionRecord>)
    ensures |window| == MinInt(|log|, HistoryLimit)
    ensures window == log[|log| - |window|..]
  {
    if |log| <= HistoryLimit then log else log[|log| - HistoryLimit..]
  }

  /** Appending a record and dropping the oldest once the list is over the
      limit keeps exactly the window of the extended log. */
  lemma RecentAppend(log: seq<ActionRecord>, rec: ActionRecord)
    ensures var grown := Recent(log) + [rec];
      Recent(log + [rec]) == if |grown| > HistoryLimit then grown[1..] else grown
  {
    var grown := Recent(log) + [rec];
    var ext := log + [rec];
    if |log| >= HistoryLimit {
      assert |grown| == HistoryLimit + 1;
      assert grown[1..] == ext[|ext| - HistoryLimit..];
    } else {
      assert Recent(log) == log;
    }
  }

  /** One step of `get_delay` on a history that is the window of `log`:
      the new history is the window of the extended log, its length is
      capped at the limit and it ends with the new record. */
  lemma HistoryStep(log: seq<ActionRecord>, rec: ActionRecord)
    ensures var grown := Recent(log) + [rec];
      var kept := if |grown| > HistoryLimit then grown[1..] else grown;
      && kept == Recent(log + [rec])
      && |kept| == MinInt(|log| + 1, HistoryLimit)
      && kept[|kept| - 1] == rec
  {
    RecentAppend(log, rec);
  }

  /** Break lengths in seconds; all four draws are taken on every call,
      and an unknown break type gets 600 seconds. */
  datatype BreakDraws = BreakDraws(micro: real, short: real, scheduled: real, long: real)

  predicate ValidDraws(d: BreakDraws) {
    && 0.0 <= d.micro <= 1.0 && 0.0 <= d.short <= 1.0
    && 0.0 <= d.scheduled <= 1.0 && 0.0 <= d.long <= 1.0
  }

  /** `_get_break_duration`. */
  function BreakDuration(breakType: string, d: BreakDraws): (seconds: real)
    requires ValidDraws(d)
    ensures breakType == "micro" ==> 30.0 <= seconds <= 120.0
    ensures breakType == "short" ==> 300.0 <= seconds <= 600.0
    ensures breakType == "scheduled" ==> 600.0 <= seconds <= 1200.0
    ensures breakType == "long" ==> 1800.0 <= seconds <= 3600.0
    ensures breakType !in {"micro", "short", "scheduled", "long"} ==> seconds == 600.0
  {
    var durations := map[
      "micro" := Uniform(30.0, 120.0, d.micro),
      "short" := Uniform(300.0, 600.0, d.short),
      "scheduled" := Uniform(600.0, 1200.0, d.scheduled),
      "long" := Uniform(1800.0, 3600.0, d.long)];
    if breakType in durations then durations[breakType] else 600.0
  }

  /** Chance per poll of a random micro-break. */
  const MicroBreakChance := 0.001

  datatype SessionStats = SessionStats(
    sessionDurationHours: real,
    totalActions: nat,
    timeSinceBreakMinutes: real,
    currentFatigue: real,
    actionsPerHour: real)

  /**
   * The session pacer.  `actionLog` is the full record of `get_delay`
   * calls, which the source does not keep: it lets the invariant say that
   * `actionHistory` is the newest window of it.
   */
  class TimingVariation {
    const config: SafetyConfig
    const startTime: real
    var actionCount: nat
    var lastBreakTime: real
    var actionHistory: seq<ActionRecord>
    ghost var actionLog: seq<ActionRecord>

    ghost predicate Valid()
      reads this
    {
      && |actionLog| == actionCount
      && actionHistory == Recent(actionLog)
    }

    constructor (config: SafetyConfig, now: real)
      ensures Valid()
      ensures this.config == config && startTime == now && lastBreakTime == now
      ensures actionCount == 0 && actionHistory == [] && actionLog == []
    {
      this.config := config;
      startTime := now;
      actionCount := 0;
      lastBreakTime := now;
      actionHistory := [];
      actionLog := [];
    }

    /** `_calculate_fatigue` at time `now`. */
    function CalculateFatigue(now: real): real
      reads this
    {
      Fatigue(config, now - startTime, actionCount)
    }

    /** `get_delay`: the fatigue uses the count before this action is
        counted. */
    method GetDelay(actionType: string, now: real, baseDelay: real, jitter: real)
      returns (finalDelay: real)
      requires Valid()
      requires DelayDraws(config, actionType, baseDelay, jitter)
      modifies this`actionCount, this`actionHistory, this`actionLog
      ensures Valid()
      ensures finalDelay == ActionDelay(baseDelay, Fatigue(config, now - startTime, old(actionCount)), jitter)
      ensures actionCount == old(actionCount) + 1
      ensures actionLog == old(actionLog) + [ActionRecord(now, actionType, finalDelay)]
      ensures var grown := old(actionHistory) + [ActionRecord(now, actionType, finalDelay)];
        actionHistory == if |grown| > HistoryLimit then grown[1..] else grown
      ensures |actionHistory| == MinInt(actionCount, HistoryLimit)
      ensures actionHistory[|actionHistory| - 1] == ActionRecord(now, actionType, finalDelay)
    {
      var fatigue := CalculateFatigue(now);
      var delayWithFatigue := baseDelay * fatigue;
      finalDelay := delayWithFatigue * jitter;
      RecordAction(ActionRecord(now, actionType, finalDelay));
    }

    /** The bookkeeping half of `get_delay`: count the action, append its
        record and drop the oldest one once more than the limit are kept. */
    method RecordAction(entry: ActionRecord)
      requires Valid()
      modifies this`actionCount, this`actionHistory, this`actionLog
      ensures Valid()
      ensures actionCount == old(actionCount) + 1
      ensures actionLog == old(actionLog) + [entry]
      ensures var grown := old(actionHistory) + [entry];
        actionHistory == if |grown| > HistoryLimit then grown[1..] else grown
      ensures |actionHistory| == MinInt(actionCount, HistoryLimit)
      ensures actionHistory[|actionHistory| - 1] == entry
    {
      actionCount := actionCount + 1;
      HistoryStep(actionLog, entry);
      actionHistory := actionHistory + [entry];
      actionLog := actionLog + [entry];
      if |actionHistory| > HistoryLimit {
        actionHistory := actionHistory[1..];
      }
    }

    /** `should_take_break`: scheduled break, else micro-break, else the
        session cap; `(false, 0)` when none applies. */
    function ShouldTakeBreak(now: real, microDraw: real, draws: BreakDraws): (decision: (bool, real))
      reads this
      requires 0.0 <= microDraw < 1.0 && ValidDraws(draws)
      ensures decision.0 <==>
        || now - lastBreakTime >= config.breakFrequency as real
        || microDraw < MicroBreakChance
        || now - startTime >= config.maxSessionDuration as real
      ensures !decision.0 ==> decision.1 == 0.0
      ensures now - lastBreakTime >= config.breakFrequency as real ==>
        600.0 <= decision.1 <= 1200.0
      ensures now - lastBreakTime < config.breakFrequency as real && microDraw < MicroBreakChance ==>
        30.0 <= decision.1 <= 120.0
      ensures now - lastBreakTime < config.breakFrequency as real && MicroBreakChance <= microDraw
              && now - startTime >= config.maxSessionDuration as real ==>
        1800.0 <= decision.1 <= 3600.0
    {
      var timeSinceBreak := now - lastBreakTime;
      if timeSinceBreak >= config.breakFrequency as real then (true, BreakDuration("scheduled", draws))
      else if microDraw < MicroBreakChance then (true, BreakDuration("micro", draws))
      else
        var sessionDuration := now - startTime;
        if sessionDuration >= config.maxSessionDuration as real then (true, BreakDuration("long", draws))
        else (false, 0.0)
    }

    /** `record_break`. */
    method RecordBreak(now: real)
      requires Valid()
      modifies this`lastBreakTime
      ensures Valid()
      ensures lastBreakTime == now
    {
      lastBreakTime := now;
    }

    /** `get_session_stats`: a read-only snapshot. */
    function GetSessionStats(now: real): (stats: SessionStats)
      reads this
      ensures stats.totalActions == actionCount
      ensures stats.sessionDurationHours * 3600.0 == now - startTime
      ensures stats.timeSinceBreakMinutes * 60.0 == now - lastBreakTime
      ensures stats.currentFatigue == CalculateFatigue(now)
      ensures now - startTime <= 0.0 ==> stats.actionsPerHour == 0.0
      ensures now - startTime > 0.0 ==> stats.actionsPerHour * stats.sessionDurationHours == actionCount as real
    {
      var sessionDuration := now - startTime;
      var timeSinceBreak := now - lastBreakTime;
      SessionStats(
        sessionDuration / 3600.0,
        actionCount,
        timeSinceBreak / 60.0,
        CalculateFatigue(now),
        if sessionDuration > 0.0 then actionCount as real / (sessionDuration / 3600.0) else 0.0)
    }
  }

  /** Right after a break is recorded the scheduled rule is silent: the
      pacer asks for a break only on a micro-break draw or at the session
      cap. */
  lemma RecordedBreakResetsSchedule(t: TimingVariation, now: real, microDraw: real, draws: BreakDraws)
    requires 0.0 <= microDraw < 1.0 && ValidDraws(draws)
    requires t.lastBreakTime == now && 0 < t.config.breakFrequency
    ensures t.ShouldTakeBreak(now, microDraw, draws).0 <==>
      microDraw < MicroBreakChance || now - t.startTime >= t.config.maxSessionDuration as real
  {
  }

  /** A session with nothing elapsed and a micro-break draw that misses
      takes no break. */
  lemma FreshSessionTakesNoBreak(t: TimingVariation, microDraw: real, draws: BreakDraws)
    requires MicroBreakChance <= microDraw < 1.0 && ValidDraws(draws)
    requires t.lastBreakTime == t.startTime
    requires 0 < t.config.breakFrequency && 0 < t.config.maxSessionDuration
    ensures t.ShouldTakeBreak(t.startTime, microDraw, draws) == (false, 0.0)
  {
  }
}
