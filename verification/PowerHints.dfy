/** The hint rate limiter, alone: check_hint and the requests of common_power_hint. */
module PowerHints {
  import opened PokeScheduler

  const HINT_COUNT := 12
  const TWO_64: int := 0x1_0000_0000_0000_0000

  // Values of power_hint_t (hardware/power.h).
  const VSYNC := 1
  const INTERACTION := 2
  const LAUNCH := 8

  /** The intervals in microseconds that common_power_open sets. */
  function Interval(hint: nat): nat {
    if hint == VSYNC || hint == INTERACTION then 100000
    else if hint == LAUNCH then 2000000
    else 0
  }

  /** The unsigned subtraction of check_hint. */
  function Elapsed(now: nat, last: nat): nat {
    (now - last) % TWO_64
  }

  /** Whether check_hint turns a hint away: `last` is the recorded time, zero if none. */
  predicate Drops(last: nat, hint: nat, time: nat) {
    last != 0 && Interval(hint) != 0 && Elapsed(time, last) < Interval(hint)
  }

  /** What an accepted hint asks of the scheduler; times in nanoseconds. */
  function Requests(hint: nat, data: bool, maxFrequency: int): seq<Event> {
    if hint == VSYNC then
      if data then [OpenTimed(Plain(CpuFreqMin, maxFrequency), 100000000),
                    OpenTimed(Plain(MinOnlineCpus, 4), 100000000)]
      else []
    else if hint == INTERACTION then
      [OpenTimed(Plain(CpuFreqMin, maxFrequency), 100000000),
       OpenTimed(Plain(MinOnlineCpus, 2), 100000000)]
    else if hint == LAUNCH then
      [OpenTimed(Plain(CpuFreqMin, maxFrequency), 2000000000),
       OpenTimed(Plain(MinOnlineCpus, 4), 2000000000)]
    else []
  }

  /** Every boost lasts exactly the interval during which further hints are turned away. */
  lemma DurationIsInterval(hint: nat, data: bool, maxFrequency: int, i: nat)
    requires i < |Requests(hint, data, maxFrequency)|
    ensures var ev := Requests(hint, data, maxFrequency)[i];
            ev.OpenTimed? && ev.timeout == 1000 * Interval(hint) && Interval(hint) > 0
  {
  }

  // ---------- calls one after another ----------

  datatype Hint = Hint(kind: nat, at: nat)

  /** The recorded time of one kind after a sequence of hints. */
  function LastTime(hints: seq<Hint>, kind: nat): nat {
    if hints == [] then 0
    else
      var h := hints[|hints| - 1];
      var last := LastTime(hints[..|hints| - 1], kind);
      if h.kind == kind && kind < HINT_COUNT && !Drops(last, kind, h.at) then h.at else last
  }

  lemma LastTimeSnoc(hints: seq<Hint>, h: Hint)
    ensures forall kind: nat :: LastTime(hints + [h], kind) ==
              if h.kind == kind && kind < HINT_COUNT && !Drops(LastTime(hints, kind), kind, h.at) then h.at
              else LastTime(hints, kind)
  {
    assert (hints + [h])[..|hints|] == hints;
  }

  /** Whether the i-th hint of a sequence is accepted. */
  predicate Accepted(hints: seq<Hint>, i: nat)
    requires i < |hints|
  {
    hints[i].kind < HINT_COUNT && !Drops(LastTime(hints[..i], hints[i].kind), hints[i].kind, hints[i].at)
  }

  ghost predicate ClockOk(hints: seq<Hint>) {
    && (forall i :: 0 <= i < |hints| ==> 0 < hints[i].at < TWO_64)
    && (forall i, j :: 0 <= i <= j < |hints| ==> hints[i].at <= hints[j].at)
  }

  /** The recorded time lies between any accepted hint of the kind and the latest hint. */
  lemma {:induction false} LastTimeBounds(hints: seq<Hint>, i: nat)
    requires ClockOk(hints) && i < |hints| && Accepted(hints, i)
    ensures hints[i].at <= LastTime(hints, hints[i].kind) <= hints[|hints| - 1].at
  {
    var init := hints[..|hints| - 1];
    assert forall k :: 0 <= k < |init| ==> init[k] == hints[k];
    if i < |init| {
      assert init[..i] == hints[..i];
      LastTimeBounds(init, i);
      assert LastTime(init, hints[i].kind) <= init[|init| - 1].at;
    } else {
      assert init == hints[..i];
    }
  }

  /** Spacing: two accepted hints of a kind with an interval are at least the interval apart. */
  lemma AcceptedAreSpaced(hints: seq<Hint>, i: nat, j: nat)
    requires ClockOk(hints) && i < j < |hints| && hints[i].kind == hints[j].kind
    requires Accepted(hints, i) && Accepted(hints, j) && Interval(hints[i].kind) != 0
    ensures hints[j].at - hints[i].at >= Interval(hints[i].kind)
  {
    var before := hints[..j];
    assert before[..i] == hints[..i] && forall k :: 0 <= k < j ==> before[k] == hints[k];
    LastTimeBounds(before, i);
    var last := LastTime(before, hints[j].kind);
    assert before[|before| - 1].at <= hints[j].at;
    assert Elapsed(hints[j].at, last) == hints[j].at - last;
  }

  /** The hints of one kind, in order. */
  function Only(hints: seq<Hint>, kind: nat): seq<Hint> {
    if hints == [] then []
    else
      var rest := Only(hints[..|hints| - 1], kind);
      if hints[|hints| - 1].kind == kind then rest + [hints[|hints| - 1]] else rest
  }
}
