/** Threshold alarms with hysteresis, over whole runs of samples.  Samples and thresholds are real numbers. */
module NumericAlarms {
  import opened Basics

  datatype Status = NoAlarm | HiHi | LoLo | High | Low | Undefined

  datatype Rules = Rules(
    lowAlarm: Option<real>, lowWarning: Option<real>, highWarning: Option<real>, highAlarm: Option<real>, hysteresis: real)

  predicate Ordered(a: Option<real>, b: Option<real>) {
    a.Some? && b.Some? ==> a.value <= b.value
  }

  /** What configuration accepts: no negative hysteresis, thresholds in order. */
  predicate ValidRules(r: Rules) {
    && r.hysteresis >= 0.0
    && Ordered(r.lowAlarm, r.lowWarning) && Ordered(r.lowAlarm, r.highWarning) && Ordered(r.lowAlarm, r.highAlarm)
    && Ordered(r.lowWarning, r.highWarning) && Ordered(r.lowWarning, r.highAlarm) && Ordered(r.highWarning, r.highAlarm)
  }

  predicate Above(threshold: Option<real>, value: real, slack: real) {
    threshold.Some? && value >= threshold.value - slack
  }

  predicate Below(threshold: Option<real>, value: real, slack: real) {
    threshold.Some? && value <= threshold.value + slack
  }

  /** The alarm of a sample, given the status before it; a sample that is not finite has no value. */
  function Evaluate(r: Rules, sample: Option<real>, prior: Status): Status {
    if sample.None? then Undefined
    else
      var v := sample.value;
      if Above(r.highAlarm, v, 0.0) then HiHi
      else if Below(r.lowAlarm, v, 0.0) then LoLo
      else if prior.HiHi? && Above(r.highAlarm, v, r.hysteresis) then HiHi
      else if prior.LoLo? && Below(r.lowAlarm, v, r.hysteresis) then LoLo
      else if Above(r.highWarning, v, 0.0) then High
      else if Below(r.lowWarning, v, 0.0) then Low
      else if prior.High? && Above(r.highWarning, v, r.hysteresis) then High
      else if prior.Low? && Below(r.lowWarning, v, r.hysteresis) then Low
      else NoAlarm
  }

  function Severity(status: Status): nat {
    match status
    case NoAlarm => 0
    case High => 1
    case Low => 1
    case HiHi => 2
    case LoLo => 2
    case Undefined => 3
  }

  /** Without memory: severity 2 at or beyond a major threshold, 1 at or beyond a warning only, and the high side on a tie. */
  lemma WithoutMemory(r: Rules, v: real)
    ensures var now := Evaluate(r, Some(v), NoAlarm);
            var tooHigh := r.highAlarm.Some? && v >= r.highAlarm.value;
            var tooLow := r.lowAlarm.Some? && v <= r.lowAlarm.value;
            var high := r.highWarning.Some? && v >= r.highWarning.value;
            var low := r.lowWarning.Some? && v <= r.lowWarning.value;
            && (Severity(now) == 2 <==> tooHigh || tooLow)
            && (Severity(now) == 1 <==> !tooHigh && !tooLow && (high || low))
            && (Severity(now) == 0 <==> !tooHigh && !tooLow && !high && !low)
            && (now == HiHi <==> tooHigh) && (now == LoLo <==> tooLow && !tooHigh)
            && (now == High <==> high && !tooHigh && !tooLow) && (now == Low <==> low && !high && !tooHigh && !tooLow)
    ensures Evaluate(r, None, NoAlarm) == Undefined && Severity(Undefined) == 3
  {
  }

  /** The sample is within the hysteresis of the threshold that the earlier status stands for. */
  predicate Within(r: Rules, v: real, prior: Status) {
    match prior
    case HiHi => r.highAlarm.Some? && v >= r.highAlarm.value - r.hysteresis
    case LoLo => r.lowAlarm.Some? && v <= r.lowAlarm.value + r.hysteresis
    case High => r.highWarning.Some? && v >= r.highWarning.value - r.hysteresis
    case Low => r.lowWarning.Some? && v <= r.lowWarning.value + r.hysteresis
    case _ => false
  }

  /** With memory the earlier status stays exactly if it is worse than what the sample alone says and still within hysteresis. */
  lemma MemoryLaw(r: Rules, sample: Option<real>, prior: Status)
    requires ValidRules(r)
    ensures var now := Evaluate(r, sample, NoAlarm);
            Evaluate(r, sample, prior)
            == if sample.Some? && Within(r, sample.value, prior) && Severity(prior) > Severity(now) then prior else now
  {
  }

  /** Memory never lowers the severity, and raises it only while the earlier condition is within its hysteresis. */
  lemma HysteresisOnlyRaises(r: Rules, sample: Option<real>, prior: Status)
    requires ValidRules(r)
    ensures Severity(Evaluate(r, sample, prior)) >= Severity(Evaluate(r, sample, NoAlarm))
    ensures Evaluate(r, sample, prior) != Evaluate(r, sample, NoAlarm) ==>
              Evaluate(r, sample, prior) == prior && r.hysteresis > 0.0
              && Severity(prior) > Severity(Evaluate(r, sample, NoAlarm))
  {
  }

  // ---- runs ----

  /** The status after a run of finite samples. */
  function After(r: Rules, start: Status, samples: seq<real>): Status {
    if samples == [] then start
    else Evaluate(r, Some(samples[|samples| - 1]), After(r, start, samples[..|samples| - 1]))
  }

  /** The high major alarm, or the low one. */
  datatype Side = Upper | Lower

  function Alarm(side: Side): Status {
    if side.Upper? then HiHi else LoLo
  }

  /** How far a sample is out to this side. */
  function Out(side: Side, v: real): real {
    if side.Upper? then v else -v
  }

  /** Where this side's major alarm begins, if it is configured. */
  function Edge(r: Rules, side: Side): Option<real> {
    if side.Upper? then r.highAlarm else if r.lowAlarm.Some? then Some(-r.lowAlarm.value) else None
  }

  /** The k-th sample brings the major alarm of this side up. */
  predicate Enters(r: Rules, side: Side, start: Status, samples: seq<real>, k: nat)
    requires k < |samples|
  {
    After(r, start, samples[..k]) != Alarm(side) && After(r, start, samples[..k + 1]) == Alarm(side)
  }

  /** The smaller of the hysteresis and the distance between the two major thresholds. */
  function Margin(r: Rules): real {
    if r.lowAlarm.Some? && r.highAlarm.Some? && r.highAlarm.value - r.lowAlarm.value < r.hysteresis
    then r.highAlarm.value - r.lowAlarm.value else r.hysteresis
  }

  lemma EnterIsOut(r: Rules, side: Side, v: real, prior: Status)
    requires ValidRules(r) && Evaluate(r, Some(v), prior) == Alarm(side) && prior != Alarm(side)
    ensures Edge(r, side).Some? && Out(side, v) >= Edge(r, side).value
  {
  }

  lemma LeaveIsIn(r: Rules, side: Side, v: real)
    requires ValidRules(r) && Edge(r, side).Some? && Evaluate(r, Some(v), Alarm(side)) != Alarm(side)
    ensures Out(side, v) <= Edge(r, side).value - Margin(r)
  {
  }

  lemma AfterNext(r: Rules, start: Status, samples: seq<real>, k: nat)
    requires k < |samples|
    ensures After(r, start, samples[..k + 1]) == Evaluate(r, Some(samples[k]), After(r, start, samples[..k]))
  {
    assert samples[..k + 1][..k] == samples[..k];
  }

  /** Before a sample that is not in the alarm, after one that was, the alarm was left at a sample well inside. */
  lemma {:induction false} LeftAt(r: Rules, side: Side, start: Status, samples: seq<real>, i: nat, j: nat) returns (k: nat)
    requires ValidRules(r) && Edge(r, side).Some? && i < j <= |samples|
    requires After(r, start, samples[..i + 1]) == Alarm(side) && After(r, start, samples[..j]) != Alarm(side)
    ensures i < k < j && Out(side, samples[k]) <= Edge(r, side).value - Margin(r)
  {
    AfterNext(r, start, samples, j - 1);
    if After(r, start, samples[..j - 1]) == Alarm(side) {
      k := j - 1;
      LeaveIsIn(r, side, samples[k]);
      assert samples[..i + 1] == samples[..j] ==> i + 1 == j;
    } else {
      k := LeftAt(r, side, start, samples, i, j - 1);
    }
  }

  /** Between two entries into the major alarm of a side the signal swings out by at least the margin. */
  lemma SwingBetweenEntries(r: Rules, side: Side, start: Status, samples: seq<real>, i: nat, j: nat)
    requires ValidRules(r) && i < j < |samples| && Enters(r, side, start, samples, i) && Enters(r, side, start, samples, j)
    ensures exists k | i < k < j :: Out(side, samples[j]) - Out(side, samples[k]) >= Margin(r)
  {
    AfterNext(r, start, samples, j);
    EnterIsOut(r, side, samples[j], After(r, start, samples[..j]));
    var k := LeftAt(r, side, start, samples, i, j);
    assert Out(side, samples[j]) - Out(side, samples[k]) >= Margin(r);
  }

  // ---- how often ----

  function Entries(r: Rules, side: Side, start: Status, samples: seq<real>): nat {
    if samples == [] then 0
    else
      Entries(r, side, start, samples[..|samples| - 1])
      + if Enters(r, side, start, samples, |samples| - 1) then 1 else 0
  }

  function Distance(a: real, b: real): real {
    if a < b then b - a else a - b
  }

  function Variation(samples: seq<real>): real {
    if |samples| < 2 then 0.0
    else Variation(samples[..|samples| - 1]) + Distance(samples[|samples| - 2], samples[|samples| - 1])
  }

  function Positive(x: real): real {
    if x < 0.0 then 0.0 else x
  }

  /** `times` entries cost at least the margin each, but for the first. */
  function Cost(times: nat, margin: real): real {
    if times == 0 then 0.0 else (times - 1) as real * margin
  }

  lemma CostNext(times: nat, margin: real)
    requires times > 0
    ensures Cost(times + 1, margin) == Cost(times, margin) + margin
  {
  }

  /** The account kept along a run: what earlier entries cost, plus what the next one has been paid already. */
  predicate Covers(margin: real, level: real, entries: nat, up: bool, out: real, total: real) {
    && Cost(entries, margin) <= total
    && (entries > 0 && !up ==> Cost(entries, margin) + Positive(out - level) <= total)
  }

  lemma CoversNext(margin: real, level: real, entries: nat, up: bool, out: real, total: real, upNext: bool, next: real)
    requires Covers(margin, level, entries, up, out, total) && margin >= 0.0
    requires (!up && upNext ==> next >= level + margin) && (up && !upNext ==> next <= level)
    ensures Covers(margin, level, entries + if !up && upNext then 1 else 0, upNext, next, total + Distance(out, next))
  {
    if !up && upNext && entries > 0 {
      CostNext(entries, margin);
    }
    hide Cost;
  }

  ghost predicate Paid(r: Rules, side: Side, start: Status, samples: seq<real>)
    requires Edge(r, side).Some?
  {
    && (samples == [] ==> Entries(r, side, start, samples) == 0)
    && (samples != [] ==>
          Covers(Margin(r), Edge(r, side).value - Margin(r), Entries(r, side, start, samples),
                 After(r, start, samples) == Alarm(side), Out(side, samples[|samples| - 1]), Variation(samples)))
  }

  lemma {:induction false} RunIsPaid(r: Rules, side: Side, start: Status, samples: seq<real>)
    requires ValidRules(r) && Edge(r, side).Some?
    ensures Paid(r, side, start, samples)
  {
    if samples != [] {
      var n := |samples| - 1;
      var before, v := samples[..n], samples[n];
      RunIsPaid(r, side, start, before);
      var prior := After(r, start, before);
      AfterNext(r, start, samples, n);
      assert samples[..n + 1] == samples;
      if prior != Alarm(side) && After(r, start, samples) == Alarm(side) {
        EnterIsOut(r, side, v, prior);
      }
      if prior == Alarm(side) && After(r, start, samples) != Alarm(side) {
        LeaveIsIn(r, side, v);
      }
      assert Margin(r) >= 0.0;
      hide Evaluate, ValidRules, Margin, Edge, Covers;
      if n > 0 {
        CoversNext(Margin(r), Edge(r, side).value - Margin(r), Entries(r, side, start, before), prior == Alarm(side),
                   Out(side, before[n - 1]), Variation(before), After(r, start, samples) == Alarm(side), Out(side, v));
      } else {
        FirstIsFree(Margin(r), Edge(r, side).value - Margin(r), Entries(r, side, start, samples),
                    After(r, start, samples) == Alarm(side), Out(side, v));
      }
    }
  }

  lemma FirstIsFree(margin: real, level: real, entries: nat, up: bool, out: real)
    requires entries == 0 || (entries == 1 && up)
    ensures Covers(margin, level, entries, up, out, 0.0)
  {
  }

  /** The number of entries into the major alarm of a side is bounded by the total variation of the signal. */
  lemma EntriesBoundedByVariation(r: Rules, side: Side, start: Status, samples: seq<real>)
    requires ValidRules(r) && Edge(r, side).Some? && Entries(r, side, start, samples) > 0
    ensures (Entries(r, side, start, samples) - 1) as real * Margin(r) <= Variation(samples)
  {
    hide Entries, Variation, Margin, After, ValidRules, Edge, Evaluate, Covers, Cost, Out;
    var n, margin, total := Entries(r, side, start, samples), Margin(r), Variation(samples);
    RunIsPaid(r, side, start, samples);
    CoversCost(margin, Edge(r, side).value - margin, n, After(r, start, samples) == Alarm(side),
               Out(side, samples[|samples| - 1]), total);
  }

  lemma CoversCost(margin: real, level: real, entries: nat, up: bool, out: real, total: real)
    requires Covers(margin, level, entries, up, out, total) && entries > 0
    ensures (entries - 1) as real * margin <= total
  {
    hide Positive;
    CostIs(entries, margin);
  }

  lemma CostIs(times: nat, margin: real)
    requires times > 0
    ensures Cost(times, margin) == (times - 1) as real * margin
  {
  }
}
