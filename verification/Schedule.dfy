/** Sizing a tier by the clock, and the budget an accepted tier catalog keeps at every instant. */
module Schedule {
  import opened Wrappers

  const DAY := 1440
  const WEEK := 10080

  // --- days ---

  /** One part of a window's days: a day, or a range that may wrap the week. */
  datatype Part = Part(from: nat, to: nat)

  predicate ValidPart(p: Part) {
    p.from < 7 && p.to < 7
  }

  /** Day k is reached going forward from `from` before passing `to`. */
  predicate InRange(p: Part, k: nat) {
    k < 7 && (k + 7 - p.from) % 7 <= (p.to + 7 - p.from) % 7
  }

  /** How many days after `from` day k comes. */
  function Ahead(from: nat, k: nat): nat
    requires from < 7 && k < 7
  {
    if k >= from then k - from else k + 7 - from
  }

  lemma AheadNext(from: nat, d: nat)
    requires from < 7 && d < 7
    ensures Ahead(from, from) == 0
    ensures Ahead(from, d) < 6 ==> Ahead(from, (d + 1) % 7) == Ahead(from, d) + 1
    ensures Ahead(from, d) == 6 ==> (d + 1) % 7 == from
    ensures Ahead(from, d) == (d + 7 - from) % 7
  {
  }

  method MarkRange(days: array<bool>, p: Part)
    requires days.Length == 7 && ValidPart(p)
    modifies days
    ensures forall k :: 0 <= k < 7 ==> days[k] == (old(days[k]) || InRange(p, k))
  {
    forall k | 0 <= k < 7 ensures Ahead(p.from, k) == (k + 7 - p.from) % 7 {
      AheadNext(p.from, k);
    }
    hide InRange;
    var d: nat := p.from;
    while true
      invariant d < 7 && Ahead(p.from, d) <= Ahead(p.from, p.to)
      invariant forall k :: 0 <= k < 7 ==> days[k] == (old(days[k]) || Ahead(p.from, k) < Ahead(p.from, d))
      decreases 7 - Ahead(p.from, d)
    {
      days[d] := true;
      if d == p.to {
        break;
      }
      AheadNext(p.from, d);
      d := (d + 1) % 7;
    }
    forall k | 0 <= k < 7 ensures InRange(p, k) <==> Ahead(p.from, k) <= Ahead(p.from, p.to) {
      RangeAhead(p, k);
    }
  }

  lemma RangeAhead(p: Part, k: nat)
    requires ValidPart(p) && k < 7
    ensures InRange(p, k) <==> Ahead(p.from, k) <= Ahead(p.from, p.to)
  {
    AheadNext(p.from, k);
    AheadNext(p.from, p.to);
  }

  /** The days a window lists; no parts at all stand for "daily". */
  method ListDays(days: array<bool>, parts: seq<Part>)
    requires days.Length == 7 && forall i :: 0 <= i < |parts| ==> ValidPart(parts[i])
    requires forall k :: 0 <= k < 7 ==> !days[k]
    modifies days
    ensures forall k :: 0 <= k < 7 ==> days[k] == Lists(parts, k)
  {
    if |parts| == 0 {
      var k := 0;
      while k < 7
        invariant 0 <= k <= 7 && forall j :: 0 <= j < k ==> days[j]
      {
        days[k] := true;
        k := k + 1;
      }
      return;
    }
    var i := 0;
    while i < |parts|
      invariant 0 <= i <= |parts|
      invariant forall k :: 0 <= k < 7 ==> days[k] == exists j :: 0 <= j < i && InRange(parts[j], k)
    {
      MarkRange(days, parts[i]);
      i := i + 1;
    }
  }

  predicate Lists(parts: seq<Part>, day: nat) {
    day < 7 && (parts == [] || exists j :: 0 <= j < |parts| && InRange(parts[j], day))
  }

  // --- windows ---

  datatype Window = Window(days: seq<bool>, start: nat, end: nat, min: Option<nat>, pool: Option<nat>, name: string)

  /** As parsed: seven days, a start before midnight, an end by midnight. */
  predicate ValidWindow(w: Window) {
    |w.days| == 7 && w.start < DAY && w.end <= DAY && (w.min.Some? || w.pool.Some?)
  }

  /** Does the window cover this minute of this day? */
  predicate Covers(w: Window, day: nat, now: nat)
    requires ValidWindow(w) && day < 7
  {
    if w.start < w.end then w.days[day] && now >= w.start && now < w.end
    else (w.days[day] && now >= w.start) || (w.days[(day + 6) % 7] && now < w.end)
  }

  /** How long a window is open: to its end, or past midnight to it. */
  function Length(w: Window): int {
    if w.start < w.end then w.end - w.start else w.end - w.start + DAY
  }

  /** Minutes into the week since day d's start of the window. */
  function Since(w: Window, d: nat, day: nat, now: nat): int {
    (day * DAY + now - (d * DAY + w.start)) % WEEK
  }

  /**
   A window covers exactly the minutes within its length of its start on a listed day, counting around
   the week.
   */
  lemma CoversCyclic(w: Window, day: nat, now: nat)
    requires ValidWindow(w) && day < 7 && now < DAY
    ensures Covers(w, day, now) <==> exists d :: 0 <= d < 7 && w.days[d] && Since(w, d, day, now) < Length(w)
  {
    forall d | 0 <= d < 7
      ensures Since(w, d, day, now) < Length(w) <==>
              if w.start < w.end then d == day && w.start <= now < w.end
              else (d == day && now >= w.start) || (d == (day + 6) % 7 && now < w.end)
    {
      SinceMeans(w, d, day, now);
    }
    if Covers(w, day, now) {
      var d := if w.days[day] && now >= w.start && (w.start < w.end ==> now < w.end) then day else (day + 6) % 7;
      assert w.days[d] && Since(w, d, day, now) < Length(w);
    }
  }

  lemma SinceMeans(w: Window, d: nat, day: nat, now: nat)
    requires ValidWindow(w) && day < 7 && d < 7 && now < DAY
    ensures Since(w, d, day, now) < Length(w) <==>
            if w.start < w.end then d == day && w.start <= now < w.end
            else (d == day && now >= w.start) || (d == (day + 6) % 7 && now < w.end)
  {
    var x := (day - d) * DAY + now - w.start;
    assert day * DAY + now - (d * DAY + w.start) == x;
    assert - WEEK < x < WEEK;
    if x < 0 {
      assert x % WEEK == x + WEEK;
    } else {
      assert x % WEEK == x;
    }
  }

  // --- sizes ---

  datatype Sizes = Sizes(min: int, pool: int, window: string)

  function At(windows: seq<Window>, day: nat, now: nat, base: Sizes): Sizes
    requires day < 7 && forall i :: 0 <= i < |windows| ==> ValidWindow(windows[i])
  {
    if windows == [] then base.(window := "")
    else if Covers(windows[0], day, now) then
      var w := windows[0];
      Sizes(if w.min.Some? then w.min.value else base.min, if w.pool.Some? then w.pool.value else base.pool, w.name)
    else At(windows[1..], day, now, base)
  }

  method SizesNow(windows: seq<Window>, day: nat, now: nat, base: Sizes) returns (s: Sizes)
    requires day < 7 && forall i :: 0 <= i < |windows| ==> ValidWindow(windows[i])
    ensures s == At(windows, day, now, base)
  {
    var i := 0;
    while i < |windows|
      invariant 0 <= i <= |windows|
      invariant At(windows, day, now, base) == At(windows[i..], day, now, base)
    {
      assert windows[i..][0] == windows[i] && windows[i..][1..] == windows[i + 1..];
      var w := windows[i];
      if Covers(w, day, now) {
        s := base;
        if w.min.Some? {
          s := s.(min := w.min.value);
        }
        if w.pool.Some? {
          s := s.(pool := w.pool.value);
        }
        return s.(window := w.name);
      }
      i := i + 1;
    }
    return base.(window := "");
  }

  /** The first covering window sizes the moment; with none, the base sizes do. */
  lemma {:induction false} AtFirst(windows: seq<Window>, day: nat, now: nat, base: Sizes, k: nat)
    requires day < 7 && forall i :: 0 <= i < |windows| ==> ValidWindow(windows[i])
    requires k <= |windows| && forall i :: 0 <= i < k ==> !Covers(windows[i], day, now)
    requires k < |windows| ==> Covers(windows[k], day, now)
    ensures var s := At(windows, day, now, base);
            if k == |windows| then s == base.(window := "")
            else
              var w := windows[k];
              && s.min == (if w.min.Some? then w.min.value else base.min)
              && s.pool == (if w.pool.Some? then w.pool.value else base.pool) && s.window == w.name
  {
    if windows != [] && k > 0 {
      assert forall i :: 0 <= i < k - 1 ==> windows[1..][i] == windows[i + 1];
      AtFirst(windows[1..], day, now, base, k - 1);
    }
  }

  function Value(o: Option<nat>): nat {
    if o.Some? then o.value else 0
  }

  /** The largest a list of optional sizes asks for. */
  function MaxOf(sizes: seq<Option<nat>>): (m: nat)
    ensures forall i :: 0 <= i < |sizes| ==> Value(sizes[i]) <= m
    ensures m == 0 || exists i :: 0 <= i < |sizes| && Value(sizes[i]) == m
  {
    if sizes == [] then 0
    else
      var rest := MaxOf(sizes[..|sizes| - 1]);
      var n := Value(sizes[|sizes| - 1]);
      assert forall i :: 0 <= i < |sizes| - 1 ==> sizes[i] == sizes[..|sizes| - 1][i];
      if n > rest then n else rest
  }

  function Mins(windows: seq<Window>): (s: seq<Option<nat>>)
    ensures |s| == |windows|
  {
    seq(|windows|, i requires 0 <= i < |windows| => windows[i].min)
  }

  /** One more size counts as it should. */
  lemma MaxOfMore(sizes: seq<Option<nat>>, i: nat)
    requires i < |sizes|
    ensures MaxOf(sizes[..i + 1]) == Max(MaxOf(sizes[..i]), Value(sizes[i]))
  {
    assert sizes[..i + 1][..i] == sizes[..i];
  }

  method LargestMin(windows: seq<Window>) returns (n: nat)
    ensures n == MaxOf(Mins(windows))
  {
    n := 0;
    var i := 0;
    ghost var sizes := Mins(windows);
    hide MaxOf, Mins;
    assert MaxOf(sizes[..0]) == 0 by {
      NoneMax(sizes[..0]);
    }
    while i < |windows|
      invariant 0 <= i <= |windows| && n == MaxOf(sizes[..i])
    {
      MaxOfMore(sizes, i);
      assert sizes[i] == windows[i].min by {
        MinAt(windows, i);
      }
      if windows[i].min.Some? {
        n := Max(n, windows[i].min.value);
      }
      i := i + 1;
    }
    assert sizes[..i] == sizes;
  }

  lemma NoneMax(sizes: seq<Option<nat>>)
    requires sizes == []
    ensures MaxOf(sizes) == 0
  {
  }

  lemma MinAt(windows: seq<Window>, i: nat)
    requires i < |windows|
    ensures Mins(windows)[i] == windows[i].min
  {
  }

  function Pools(windows: seq<Window>): (s: seq<Option<nat>>)
    ensures |s| == |windows|
  {
    seq(|windows|, i requires 0 <= i < |windows| => windows[i].pool)
  }

  lemma PoolAt(windows: seq<Window>, i: nat)
    requires i < |windows|
    ensures Pools(windows)[i] == windows[i].pool
  {
  }

  method LargestPool(windows: seq<Window>) returns (n: nat)
    ensures n == MaxOf(Pools(windows))
  {
    n := 0;
    var i := 0;
    ghost var sizes := Pools(windows);
    hide MaxOf, Pools;
    assert MaxOf(sizes[..0]) == 0 by {
      NoneMax(sizes[..0]);
    }
    while i < |windows|
      invariant 0 <= i <= |windows| && n == MaxOf(sizes[..i])
    {
      MaxOfMore(sizes, i);
      assert sizes[i] == windows[i].pool by {
        PoolAt(windows, i);
      }
      if windows[i].pool.Some? {
        n := Max(n, windows[i].pool.value);
      }
      i := i + 1;
    }
    assert sizes[..i] == sizes;
  }

  lemma MaxOfRest(all: seq<Option<nat>>, rest: seq<Option<nat>>)
    requires all != [] && rest == all[1..]
    ensures MaxOf(rest) <= MaxOf(all)
  {
    forall i | 0 <= i < |rest| ensures Value(rest[i]) <= MaxOf(all) {
      assert rest[i] == all[i + 1];
    }
  }

  lemma MinsTail(windows: seq<Window>)
    requires windows != []
    ensures Mins(windows)[1..] == Mins(windows[1..]) && Pools(windows)[1..] == Pools(windows[1..])
    ensures Mins(windows)[0] == windows[0].min && Pools(windows)[0] == windows[0].pool
  {
  }

  /** At no moment does a schedule keep more than its base or its largest window, hot or stopped. */
  lemma {:induction false} AtWithin(windows: seq<Window>, day: nat, now: nat, base: Sizes)
    requires day < 7 && forall i :: 0 <= i < |windows| ==> ValidWindow(windows[i])
    ensures At(windows, day, now, base).min <= Max(base.min, MaxOf(Mins(windows)))
    ensures At(windows, day, now, base).pool <= Max(base.pool, MaxOf(Pools(windows)))
  {
    if windows != [] {
      hide Covers, MaxOf, Mins, Pools;
      AtWithin(windows[1..], day, now, base);
      MinsTail(windows);
      var mins, pools := Mins(windows), Pools(windows);
      MaxOfRest(mins, mins[1..]);
      MaxOfRest(pools, pools[1..]);
      assert Value(mins[0]) <= MaxOf(mins) && Value(pools[0]) <= MaxOf(pools);
    }
  }
}

/** The checks a tier catalog passes before it is used. */
module Tiers {
  import opened Wrappers
  import opened Schedule

  datatype Kind = Firecracker | EC2 | Unknown

  /** `imageOK` and `ec2OK` stand for the checks of files and of the EC2 block's own fields. */
  datatype Tier = Tier(
    name: string, kind: Kind, hasEC2: bool, vcpu: int, memMiB: int, golden: string, imageOK: bool, ec2OK: bool,
    min: int, max: int, pool: int, windows: Option<seq<Window>>
  )

  datatype Fault =
    | NameMissing | NameTaken | MaxTooSmall | MinNegative | MinPastMax
    | WindowMinPastMax | WindowPoolNeedsEC2
    | EC2BlockUnexpected | NoVCPU | MemTooSmall | NoGolden | MaxPastBudget | ImageMissing
    | BadEC2 | BadKind
    | WarmPoolsPastBudget

  function WindowsOf(t: Tier): seq<Window> {
    if t.windows.Some? then t.windows.value else []
  }

  predicate ValidWindows(t: Tier) {
    forall i :: 0 <= i < |WindowsOf(t)| ==> ValidWindow(WindowsOf(t)[i])
  }

  function SizesAt(t: Tier, day: nat, now: nat): Sizes
    requires day < 7 && ValidWindows(t)
  {
    var base := Sizes(t.min, BasePool(t), "");
    if t.windows.None? then base else At(WindowsOf(t), day, now, base)
  }

  function MaxMin(t: Tier): int {
    if t.windows.None? then t.min else Max(t.min, MaxOf(Mins(t.windows.value)))
  }

  function BasePool(t: Tier): int {
    if t.hasEC2 then t.pool else 0
  }

  function MaxPool(t: Tier): int {
    if t.windows.None? then BasePool(t) else Max(BasePool(t), MaxOf(Pools(t.windows.value)))
  }

  /** The first thing wrong with one window. */
  function WindowFault(t: Tier, w: Window): Option<Fault> {
    if w.min.Some? && w.min.value > t.max then Some(WindowMinPastMax)
    else if w.pool.Some? && w.pool.value > 0 && !t.kind.EC2? then Some(WindowPoolNeedsEC2)
    else None
  }

  function WindowsFault(t: Tier, ws: seq<Window>): Option<Fault> {
    if ws == [] then None
    else if WindowFault(t, ws[0]).Some? then WindowFault(t, ws[0])
    else WindowsFault(t, ws[1..])
  }

  function KindFault(t: Tier, maxRunners: int): Option<Fault> {
    match t.kind
    case Firecracker =>
      if t.hasEC2 then Some(EC2BlockUnexpected)
      else if t.vcpu < 1 then Some(NoVCPU)
      else if t.memMiB < 128 then Some(MemTooSmall)
      else if t.golden == "" then Some(NoGolden)
      else if t.max > maxRunners then Some(MaxPastBudget)
      else if !t.imageOK then Some(ImageMissing)
      else None
    case EC2 => if t.ec2OK then None else Some(BadEC2)
    case Unknown => Some(BadKind)
  }

  function TierFault(t: Tier, seen: set<string>, maxRunners: int): Option<Fault> {
    if t.name == "" then Some(NameMissing)
    else if t.name in seen then Some(NameTaken)
    else if t.max < 1 then Some(MaxTooSmall)
    else if t.min < 0 then Some(MinNegative)
    else if t.min > t.max then Some(MinPastMax)
    else if WindowsFault(t, WindowsOf(t)).Some? then WindowsFault(t, WindowsOf(t))
    else KindFault(t, maxRunners)
  }

  function Warm(t: Tier): int {
    if t.kind.Firecracker? then MaxMin(t) else 0
  }

  /** The first fault from some tier on. */
  function Check(ts: seq<Tier>, seen: set<string>, total: int, maxRunners: int): Option<Fault> {
    if ts == [] then (if total > maxRunners then Some(WarmPoolsPastBudget) else None)
    else if TierFault(ts[0], seen, maxRunners).Some? then TierFault(ts[0], seen, maxRunners)
    else Check(ts[1..], seen + {ts[0].name}, total + Warm(ts[0]), maxRunners)
  }

  method ValidateTiers(ts: seq<Tier>, maxRunners: int) returns (fault: Option<Fault>)
    ensures fault == Check(ts, {}, 0, maxRunners)
  {
    hide WindowsFault, KindFault, MaxMin;
    var seen: set<string> := {};
    var totalMin := 0;
    var i := 0;
    while i < |ts|
      invariant 0 <= i <= |ts|
      invariant Check(ts, {}, 0, maxRunners) == Check(ts[i..], seen, totalMin, maxRunners)
    {
      assert ts[i..][0] == ts[i] && ts[i..][1..] == ts[i + 1..];
      var t := ts[i];
      if t.name == "" {
        return Some(NameMissing);
      } else if t.name in seen {
        return Some(NameTaken);
      } else if t.max < 1 {
        return Some(MaxTooSmall);
      } else if t.min < 0 {
        return Some(MinNegative);
      } else if t.min > t.max {
        return Some(MinPastMax);
      }
      seen := seen + {t.name};
      NoWindows(t);
      if t.windows.Some? {
        fault := CheckWindows(t, t.windows.value);
        if fault.Some? {
          return;
        }
      }
      fault := KindFault(t, maxRunners);
      if fault.Some? {
        return;
      }
      if t.kind.Firecracker? {
        totalMin := totalMin + MaxMin(t);
      }
      i := i + 1;
    }
    if totalMin > maxRunners {
      return Some(WarmPoolsPastBudget);
    }
    return None;
  }

  lemma NoWindows(t: Tier)
    ensures WindowsFault(t, []) == None
  {
  }

  method CheckWindows(t: Tier, ws: seq<Window>) returns (fault: Option<Fault>)
    ensures fault == WindowsFault(t, ws)
  {
    var i := 0;
    while i < |ws|
      invariant 0 <= i <= |ws| && WindowsFault(t, ws) == WindowsFault(t, ws[i..])
    {
      assert ws[i..][0] == ws[i] && ws[i..][1..] == ws[i + 1..];
      fault := WindowFault(t, ws[i]);
      if fault.Some? {
        return;
      }
      i := i + 1;
    }
    return None;
  }

  // --- what an accepted catalog keeps ---

  /** What a tier may be, whatever the others are. */
  ghost predicate Sound(t: Tier, maxRunners: int) {
    && t.name != "" && 0 <= t.min <= t.max && 1 <= t.max
    && (forall i :: 0 <= i < |WindowsOf(t)| ==> WindowFits(t, WindowsOf(t)[i]))
    && (t.kind.Firecracker? || t.kind.EC2?) && (t.kind.EC2? ==> t.ec2OK)
    && (t.kind.Firecracker? ==>
          !t.hasEC2 && t.vcpu >= 1 && t.memMiB >= 128 && t.golden != "" && t.imageOK && t.max <= maxRunners)
  }

  /** A window asks for no more than the tier's maximum, and for a pool only where there can be one. */
  predicate WindowFits(t: Tier, w: Window) {
    Value(w.min) <= t.max && (t.kind.EC2? || Value(w.pool) == 0)
  }

  function WarmTotal(ts: seq<Tier>): int {
    if ts == [] then 0 else Warm(ts[0]) + WarmTotal(ts[1..])
  }

  ghost predicate Distinct(ts: seq<Tier>) {
    forall i, j :: 0 <= i < j < |ts| ==> ts[i].name != ts[j].name
  }

  ghost predicate Accepts(ts: seq<Tier>, maxRunners: int) {
    Distinct(ts) && (forall i :: 0 <= i < |ts| ==> Sound(ts[i], maxRunners)) && WarmTotal(ts) <= maxRunners
  }

  lemma {:induction false} WindowsFaultMeans(t: Tier, ws: seq<Window>)
    requires t.max >= 0
    ensures WindowsFault(t, ws).None? <==> forall i :: 0 <= i < |ws| ==> WindowFits(t, ws[i])
  {
    if ws != [] {
      WindowsFaultMeans(t, ws[1..]);
      assert forall i :: 0 < i < |ws| ==> ws[i] == ws[1..][i - 1];
    }
  }

  lemma TierFaultMeans(t: Tier, seen: set<string>, maxRunners: int)
    ensures TierFault(t, seen, maxRunners).None? <==> t.name !in seen && Sound(t, maxRunners)
  {
    if t.max >= 0 {
      WindowsFaultMeans(t, WindowsOf(t));
    }
  }

  lemma DistinctCons(ts: seq<Tier>)
    requires ts != []
    ensures Distinct(ts) <==> Distinct(ts[1..]) && forall i :: 0 <= i < |ts[1..]| ==> ts[1..][i].name != ts[0].name
  {
    var t, rest := ts[0], ts[1..];
    if Distinct(ts) {
      forall i, j | 0 <= i < j < |rest| ensures rest[i].name != rest[j].name {
        assert ts[i + 1].name != ts[j + 1].name;
      }
      forall i | 0 <= i < |rest| ensures rest[i].name != t.name {
        assert ts[0].name != ts[i + 1].name;
      }
    }
  }

  ghost predicate AllSound(ts: seq<Tier>, seen: set<string>, maxRunners: int) {
    forall i :: 0 <= i < |ts| ==> ts[i].name !in seen && Sound(ts[i], maxRunners)
  }

  lemma AllSoundCons(ts: seq<Tier>, seen: set<string>, maxRunners: int)
    requires ts != []
    ensures Distinct(ts) && AllSound(ts, seen, maxRunners) <==>
            && ts[0].name !in seen && Sound(ts[0], maxRunners)
            && Distinct(ts[1..]) && AllSound(ts[1..], seen + {ts[0].name}, maxRunners)
  {
    hide Sound, Distinct;
    DistinctCons(ts);
    assert forall i :: 0 < i < |ts| ==> ts[i] == ts[1..][i - 1];
    assert AllSound(ts, seen, maxRunners) ==> AllSound(ts[1..], seen, maxRunners);
  }

  lemma {:induction false} CheckMeans(ts: seq<Tier>, seen: set<string>, total: int, maxRunners: int)
    ensures Check(ts, seen, total, maxRunners).None? <==>
            Distinct(ts) && AllSound(ts, seen, maxRunners) && total + WarmTotal(ts) <= maxRunners
  {
    if ts != [] {
      hide Sound, Distinct, AllSound, TierFault, Warm;
      TierFaultMeans(ts[0], seen, maxRunners);
      AllSoundCons(ts, seen, maxRunners);
      CheckMeans(ts[1..], seen + {ts[0].name}, total + Warm(ts[0]), maxRunners);
    }
  }

  /** The catalog is accepted exactly when every tier is sound, names differ and the warm pools fit the budget. */
  lemma AcceptsExactly(ts: seq<Tier>, maxRunners: int)
    ensures Check(ts, {}, 0, maxRunners).None? <==> Accepts(ts, maxRunners)
  {
    CheckMeans(ts, {}, 0, maxRunners);
  }

  /** A tier's local day and minute at some instant; each schedule has its own time zone. */
  datatype Clock = Clock(day: nat, now: nat)

  ghost predicate Clocks(ts: seq<Tier>, at: seq<Clock>) {
    |at| == |ts| && forall i :: 0 <= i < |ts| ==> at[i].day < 7 && ValidWindows(ts[i])
  }

  ghost function WarmAt(ts: seq<Tier>, at: seq<Clock>): int
    requires Clocks(ts, at)
  {
    if ts == [] then 0
    else (if ts[0].kind.Firecracker? then SizesAt(ts[0], at[0].day, at[0].now).min else 0) + WarmAt(ts[1..], at[1..])
  }

  lemma SizesWithin(t: Tier, maxRunners: int, day: nat, now: nat)
    requires Sound(t, maxRunners) && ValidWindows(t) && day < 7
    ensures 0 <= SizesAt(t, day, now).min <= MaxMin(t) <= t.max
    ensures SizesAt(t, day, now).pool <= MaxPool(t) && (t.kind.Firecracker? ==> MaxPool(t) == 0)
  {
    if t.windows.Some? {
      var ws := WindowsOf(t);
      AtWithin(ws, day, now, Sizes(t.min, BasePool(t), ""));
      AtNat(ws, day, now, Sizes(t.min, BasePool(t), ""));
      forall i | 0 <= i < |ws|
        ensures Value(Mins(ws)[i]) <= t.max && (t.kind.Firecracker? ==> Value(Pools(ws)[i]) == 0)
      {
        assert WindowFits(t, WindowsOf(t)[i]);
      }
    }
  }

  lemma {:induction false} AtNat(windows: seq<Window>, day: nat, now: nat, base: Sizes)
    requires day < 7 && (forall i :: 0 <= i < |windows| ==> ValidWindow(windows[i])) && 0 <= base.min
    ensures 0 <= At(windows, day, now, base).min
  {
    if windows != [] {
      AtNat(windows[1..], day, now, base);
    }
  }

  lemma {:induction false} WarmWithin(ts: seq<Tier>, maxRunners: int, at: seq<Clock>)
    requires Clocks(ts, at) && forall i :: 0 <= i < |ts| ==> Sound(ts[i], maxRunners)
    ensures WarmAt(ts, at) <= WarmTotal(ts)
  {
    if ts != [] {
      SizesWithin(ts[0], maxRunners, at[0].day, at[0].now);
      WarmWithin(ts[1..], maxRunners, at[1..]);
    }
  }

  predicate SizesKept(t: Tier, s: Sizes) {
    0 <= s.min <= t.max && s.pool <= MaxPool(t) && (t.kind.Firecracker? ==> s.pool <= 0)
  }

  /**
   At every instant, in whatever time zones, an accepted catalog keeps, however its windows overlap,
   the Firecracker minimums within the slot budget, each tier's minimum within its own maximum, its
   stopped pool within the largest it was sized for, and no pool at all for a Firecracker tier.
   */
  lemma BudgetKept(ts: seq<Tier>, maxRunners: int, at: seq<Clock>)
    requires Check(ts, {}, 0, maxRunners).None? && Clocks(ts, at)
    ensures WarmAt(ts, at) <= maxRunners
    ensures forall i :: 0 <= i < |ts| ==> SizesKept(ts[i], SizesAt(ts[i], at[i].day, at[i].now))
  {
    AcceptsExactly(ts, maxRunners);
    WarmWithin(ts, maxRunners, at);
    forall i | 0 <= i < |ts| ensures SizesKept(ts[i], SizesAt(ts[i], at[i].day, at[i].now)) {
      SizesWithin(ts[i], maxRunners, at[i].day, at[i].now);
    }
  }
}
