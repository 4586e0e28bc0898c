/**
 * The history screen's computations: the `m:ss` duration text of `formatTime`,
 * and the loop of `exportAll` that groups every stored sample under its
 * workout before the TCX document is built.
 */
module History {
  import opened Wrappers
  import opened Decimal
  import opened Records
  import opened Tcx

  // ---------------------------------------------------------------------------
  // formatTime

  /** JavaScript's `%`: the remainder of division truncated toward zero, with the sign of `a`. */
  function JsRem(a: int, b: int): (r: int)
    requires b > 0
    ensures a >= 0 ==> 0 <= r < b
    ensures a < 0 ==> -b < r <= 0
    ensures a >= 0 ==> r == a % b
  {
    if a >= 0 then a % b else -((-a) % b)
  }

  /** `s.padStart(width, fill)`: copies of `fill` in front of `s` until it is `width` long. */
  function PadStart(s: string, width: nat, fill: char): (r: string)
    ensures |r| == if |s| >= width then |s| else width
    ensures r[|r| - |s|..] == s
    ensures forall i :: 0 <= i < |r| - |s| ==> r[i] == fill
    decreases width - |s|
  {
    if |s| >= width then s else PadStart([fill] + s, width, fill)
  }

  /** `formatTime`: the minutes `floor(seconds / 60)`, a colon, and the seconds `seconds % 60` padded to two characters. */
  function FormatTime(seconds: int): string {
    IntToString(seconds / 60) + ":" + PadStart(IntToString(JsRem(seconds, 60)), 2, '0')
  }

  /** A number of seconds below a minute, padded to two characters, is two digits denoting it. */
  lemma TwoDigitField(r: nat)
    requires r < 60
    ensures var field := PadStart(NatToString(r), 2, '0');
      |field| == 2 && AllDigits(field) && DigitsValue(field) == r
  {
    if r < 10 {
      OneDigitField(r);
    } else {
      DigitsRoundTrip(r);
      assert PadStart(NatToString(r), 2, '0') == NatToString(r);
    }
  }

  lemma OneDigitField(r: nat)
    requires r < 10
    ensures PadStart(NatToString(r), 2, '0') == ['0', DigitChar(r)]
    ensures DigitsValue(['0', DigitChar(r)]) == r
  {
    var c := DigitChar(r);
    assert NatToString(r) == [c];
    assert PadStart([c], 2, '0') == PadStart(['0', c], 2, '0');
    assert ['0', c][..1] == ['0'] && ['0'][..0] == [];
  }

  /** The two-character seconds field of a non-negative duration: two digits denoting `seconds % 60`. */
  lemma SecondsField(seconds: int)
    requires seconds >= 0
    ensures var field := PadStart(IntToString(JsRem(seconds, 60)), 2, '0');
      |field| == 2 && AllDigits(field) && DigitsValue(field) == seconds % 60 < 60
  {
    TwoDigitField(seconds % 60);
  }

  lemma SplitAtColon(minutes: string, field: string)
    requires |minutes| >= 1 && |field| == 2
    ensures var t := minutes + ":" + field;
      |t| >= 4 && t[|t| - 3] == ':' && t[..|t| - 3] == minutes && t[|t| - 2..] == field
  {
  }

  /**
   * The text of a non-negative duration is the minutes written in decimal, a
   * colon, and two digits for the seconds, from 00 to 59.
   */
  lemma FormatTimeShape(seconds: int)
    requires seconds >= 0
    ensures var t := FormatTime(seconds);
      |t| >= 4 && t[|t| - 3] == ':' &&
      t[..|t| - 3] == IntToString(seconds / 60) &&
      AllDigits(t[|t| - 2..]) && DigitsValue(t[|t| - 2..]) == seconds % 60 < 60
  {
    SecondsField(seconds);
    var minutes := IntToString(seconds / 60);
    var field := PadStart(IntToString(JsRem(seconds, 60)), 2, '0');
    SplitAtColon(minutes, field);
    var t := FormatTime(seconds);
    assert t == minutes + ":" + field;
    assert t[|t| - 2..] == field;
    assert DigitsValue(t[|t| - 2..]) == DigitsValue(field);
  }

  /** Reading `m:ss` back into seconds: the minutes before the last three characters, two digits after the colon. */
  function ReadTime(t: string): Option<int> {
    if |t| >= 4 && t[|t| - 3] == ':' && AllDigits(t[|t| - 2..]) then
      match ParseInt(t[..|t| - 3])
      case Some(m) => Some(m * 60 + DigitsValue(t[|t| - 2..]))
      case None => None
    else None
  }

  lemma ReadTimeOfParts(minutes: string, field: string, m: int, r: int)
    requires |minutes| >= 1 && |field| == 2 && AllDigits(field) && DigitsValue(field) == r
    requires ParseInt(minutes) == Some(m)
    ensures ReadTime(minutes + ":" + field) == Some(m * 60 + r)
  {
    SplitAtColon(minutes, field);
  }

  /** `m:ss` with `ss` the padded digits of `r` reads back as `m * 60 + r`. */
  lemma ReadTimeJoin(m: int, r: nat)
    requires r < 60
    ensures ReadTime(IntToString(m) + ":" + PadStart(NatToString(r), 2, '0')) == Some(m * 60 + r)
  {
    TwoDigitField(r);
    ParseIntRoundTrip(m);
    ReadTimeOfParts(IntToString(m), PadStart(NatToString(r), 2, '0'), m, r);
  }

  /** Reading back the text of a non-negative duration gives the duration. */
  lemma FormatTimeRoundTrip(seconds: int)
    requires seconds >= 0
    ensures ReadTime(FormatTime(seconds)) == Some(seconds)
  {
    var m, r := seconds / 60, seconds % 60;
    assert m * 60 + r == seconds;
    assert JsRem(seconds, 60) == r;
    assert IntToString(r) == NatToString(r);
    ReadTimeJoin(m, r);
  }

  /** Durations as the history list shows them, including a negative one, which keeps JavaScript's signs. */
  lemma FormatTimeExamples()
    ensures FormatTime(0) == "0:00"
    ensures FormatTime(65) == "1:05"
    ensures FormatTime(600) == "10:00"
    ensures FormatTime(-61) == "-2:-1"
  {
    FormatTimeZero();
    FormatTimeOneMinute();
    FormatTimeTenMinutes();
    FormatTimeNegative();
  }

  lemma FormatTimeZero()
    ensures FormatTime(0) == "0:00"
  {
    assert NatToString(0) == "0";
    assert PadStart("0", 2, '0') == "00";
  }

  lemma FormatTimeOneMinute()
    ensures FormatTime(65) == "1:05"
  {
    var minutes, field := IntToString(65 / 60), PadStart(IntToString(JsRem(65, 60)), 2, '0');
    assert minutes == "1" by {
      assert 65 / 60 == 1;
      assert NatToString(1) == "1";
    }
    assert field == "05" by {
      assert JsRem(65, 60) == 5;
      assert NatToString(5) == "5";
      assert PadStart("5", 2, '0') == "05";
    }
    assert FormatTime(65) == minutes + ":" + field;
  }

  lemma FormatTimeTenMinutes()
    ensures FormatTime(600) == "10:00"
  {
    assert NatToString(0) == "0" && NatToString(1) == "1";
    assert NatToString(10) == "10";
    assert PadStart("0", 2, '0') == "00";
  }

  lemma FormatTimeNegative()
    ensures FormatTime(-61) == "-2:-1"
  {
    assert NatToString(2) == "2" && NatToString(1) == "1";
    assert PadStart("-1", 2, '0') == "-1";
  }

  // ---------------------------------------------------------------------------
  // Grouping samples by workout in exportAll

  /** The samples of workout `id`, in the order they are stored. */
  function Filter(samples: seq<WorkoutSample>, id: int): (r: seq<WorkoutSample>)
    ensures |r| <= |samples|
    ensures forall i :: 0 <= i < |r| ==> r[i].workoutId == id && r[i] in samples
  {
    if samples == [] then []
    else Filter(samples[..|samples| - 1], id) + (if samples[|samples| - 1].workoutId == id then [samples[|samples| - 1]] else [])
  }

  /** The workouts that have at least one sample. */
  function WorkoutIds(samples: seq<WorkoutSample>): set<int> {
    set i | 0 <= i < |samples| :: samples[i].workoutId
  }

  /** The intended grouping: each workout with samples, mapped to its samples in stored order. */
  function GroupedBy(samples: seq<WorkoutSample>): map<int, seq<WorkoutSample>> {
    map id | id in WorkoutIds(samples) :: Filter(samples, id)
  }

  /** No workout id is listed twice. */
  predicate Distinct(ids: seq<int>) {
    forall i, j :: 0 <= i < j < |ids| ==> ids[i] != ids[j]
  }

  /** The number of samples held in the lists of `ids`. */
  function TotalSize(m: map<int, seq<WorkoutSample>>, ids: seq<int>): nat
    requires forall i :: 0 <= i < |ids| ==> ids[i] in m
  {
    if ids == [] then 0 else TotalSize(m, ids[..|ids| - 1]) + |m[ids[|ids| - 1]]|
  }

  /** Lists other than those of `ids` do not count. */
  lemma {:induction false} TotalSizeOthers(m: map<int, seq<WorkoutSample>>, ids: seq<int>, id: int, list: seq<WorkoutSample>)
    requires forall i :: 0 <= i < |ids| ==> ids[i] in m && ids[i] != id
    ensures TotalSize(m[id := list], ids) == TotalSize(m, ids)
  {
    if ids != [] {
      TotalSizeOthers(m, ids[..|ids| - 1], id, list);
    }
  }

  /** Lengthening by one the list of an id listed once adds one to the total. */
  lemma {:induction false} TotalSizeGrow(m: map<int, seq<WorkoutSample>>, ids: seq<int>, id: int, list: seq<WorkoutSample>)
    requires forall i :: 0 <= i < |ids| ==> ids[i] in m
    requires Distinct(ids) && id in ids && |list| == |m[id]| + 1
    ensures TotalSize(m[id := list], ids) == TotalSize(m, ids) + 1
  {
    var init := ids[..|ids| - 1];
    if ids[|ids| - 1] == id {
      TotalSizeOthers(m, init, id, list);
    } else {
      assert id in init by {
        var k :| 0 <= k < |ids| && ids[k] == id;
        assert init[k] == id;
      }
      TotalSizeGrow(m, init, id, list);
    }
  }

  /** Filtering a concatenation filters each part: the relative order of a workout's samples is kept. */
  lemma {:induction false} FilterConcat(a: seq<WorkoutSample>, b: seq<WorkoutSample>, id: int)
    ensures Filter(a + b, id) == Filter(a, id) + Filter(b, id)
    decreases |b|
  {
    if b == [] {
      assert a + b == a;
    } else {
      assert (a + b)[..|a + b| - 1] == a + b[..|b| - 1];
      FilterConcat(a, b[..|b| - 1], id);
    }
  }

  /** A sample lands in the list of its own workout, once for each time it is stored. */
  lemma {:induction false} FilterCounts(samples: seq<WorkoutSample>, id: int, s: WorkoutSample)
    ensures multiset(Filter(samples, id))[s] == if s.workoutId == id then multiset(samples)[s] else 0
  {
    if samples != [] {
      var init := samples[..|samples| - 1];
      assert samples == init + [samples[|samples| - 1]];
      FilterCounts(init, id, s);
    }
  }

  /**
   * `m` holds the samples of `samples` grouped by workout, and `order` lists
   * each of its keys once, so that the lists together hold every sample once.
   */
  predicate Groups(samples: seq<WorkoutSample>, m: map<int, seq<WorkoutSample>>, order: seq<int>) {
    m.Keys == WorkoutIds(samples) &&
    (forall id :: id in m ==> m[id] == Filter(samples, id)) &&
    Distinct(order) && (forall j :: 0 <= j < |order| ==> order[j] in m) &&
    (forall id :: id in m ==> id in order) &&
    TotalSize(m, order) == |samples|
  }

  /** The value the loop body stores for `s`: the list of its workout so far, with `s` pushed on. */
  function Pushed(m: map<int, seq<WorkoutSample>>, s: WorkoutSample): seq<WorkoutSample> {
    (if s.workoutId in m then m[s.workoutId] else []) + [s]
  }

  /** A workout without samples gets an empty list. */
  lemma {:induction false} FilterAbsent(samples: seq<WorkoutSample>, id: int)
    requires id !in WorkoutIds(samples)
    ensures Filter(samples, id) == []
  {
    if samples != [] {
      var init := samples[..|samples| - 1];
      assert samples[|samples| - 1].workoutId in WorkoutIds(samples);
      forall k | 0 <= k < |init|
        ensures init[k].workoutId != id
      {
        assert samples[k].workoutId in WorkoutIds(samples);
      }
      FilterAbsent(init, id);
    }
  }

  /** The grouping the loop builds is the intended one. */
  lemma GroupsAreGroupedBy(samples: seq<WorkoutSample>, m: map<int, seq<WorkoutSample>>, order: seq<int>)
    requires Groups(samples, m, order)
    ensures m == GroupedBy(samples)
  {
  }

  lemma GroupStepLists(samples: seq<WorkoutSample>, m: map<int, seq<WorkoutSample>>, s: WorkoutSample)
    requires m.Keys == WorkoutIds(samples) && forall id :: id in m ==> m[id] == Filter(samples, id)
    ensures m[s.workoutId := Pushed(m, s)].Keys == WorkoutIds(samples + [s])
    ensures forall id :: id in m[s.workoutId := Pushed(m, s)] ==>
              m[s.workoutId := Pushed(m, s)][id] == Filter(samples + [s], id)
  {
    var m' := m[s.workoutId := Pushed(m, s)];
    assert (samples + [s])[..|samples|] == samples;
    forall id | id in m'
      ensures m'[id] == Filter(samples + [s], id)
    {
      FilterConcat(samples, [s], id);
      if id == s.workoutId && s.workoutId !in m {
        FilterAbsent(samples, id);
      }
    }
    forall id | id in WorkoutIds(samples + [s])
      ensures id in m'
    {
      var k :| 0 <= k < |samples + [s]| && (samples + [s])[k].workoutId == id;
      if k < |samples| {
        assert samples[k].workoutId in WorkoutIds(samples);
      }
    }
    forall id | id in m'
      ensures id in WorkoutIds(samples + [s])
    {
      if id == s.workoutId {
        assert (samples + [s])[|samples|].workoutId == id;
      } else {
        var k :| 0 <= k < |samples| && samples[k].workoutId == id;
        assert (samples + [s])[k].workoutId == id;
      }
    }
  }

  lemma GroupStepSize(m: map<int, seq<WorkoutSample>>, order: seq<int>, s: WorkoutSample, n: nat)
    requires Distinct(order) && (forall j :: 0 <= j < |order| ==> order[j] in m)
    requires (forall id :: id in m ==> id in order) && TotalSize(m, order) == n
    ensures var order' := if s.workoutId in m then order else order + [s.workoutId];
      var m' := m[s.workoutId := Pushed(m, s)];
      Distinct(order') && (forall j :: 0 <= j < |order'| ==> order'[j] in m') &&
      (forall id :: id in m' ==> id in order') && TotalSize(m', order') == n + 1
  {
    var m' := m[s.workoutId := Pushed(m, s)];
    if s.workoutId in m {
      TotalSizeGrow(m, order, s.workoutId, Pushed(m, s));
    } else {
      TotalSizeOthers(m, order, s.workoutId, Pushed(m, s));
      var order' := order + [s.workoutId];
      assert order'[..|order'| - 1] == order;
    }
  }

  /** One turn of the loop keeps `Groups` for the samples seen so far. */
  lemma GroupStep(all: seq<WorkoutSample>, i: nat, m: map<int, seq<WorkoutSample>>, order: seq<int>)
    requires i < |all| && Groups(all[..i], m, order)
    ensures var s := all[i];
      Groups(all[..i + 1], m[s.workoutId := Pushed(m, s)], if s.workoutId in m then order else order + [s.workoutId])
  {
    assert all[..i + 1] == all[..i] + [all[i]];
    GroupStepLists(all[..i], m, all[i]);
    GroupStepSize(m, order, all[i], i);
  }

  /**
   * The grouping loop of `exportAll`: each sample is appended to the list of
   * its workout, creating the list on the workout's first sample. `order` is
   * the order in which the map's keys were first set.
   */
  method GroupByWorkout(allSamples: seq<WorkoutSample>) returns (sampleMap: map<int, seq<WorkoutSample>>, order: seq<int>)
    ensures sampleMap == GroupedBy(allSamples)
    ensures Groups(allSamples, sampleMap, order)
  {
    sampleMap := map[];
    order := [];
    for i := 0 to |allSamples|
      invariant Groups(allSamples[..i], sampleMap, order)
    {
      var s := allSamples[i];
      GroupStep(allSamples, i, sampleMap, order);
      var arr := if s.workoutId in sampleMap then sampleMap[s.workoutId] else [];
      arr := arr + [s];
      assert arr == Pushed(sampleMap, s);
      if s.workoutId !in sampleMap {
        order := order + [s.workoutId];
      }
      sampleMap := sampleMap[s.workoutId := arr];
    }
    assert allSamples[..|allSamples|] == allSamples;
    GroupsAreGroupedBy(allSamples, sampleMap, order);
  }

  /**
   * `exportAll`: nothing is exported when there are no workouts; otherwise one
   * document holds every workout, each with the samples grouped under it.
   */
  method ExportAll(workouts: seq<Workout>, allSamples: seq<WorkoutSample>, toIso: int -> string)
    returns (file: Option<string>)
    ensures file.None? <==> workouts == []
    ensures file.Some? ==> file.value == TcxText(workouts, GroupedBy(allSamples), toIso)
  {
    if |workouts| == 0 {
      return None;
    }
    var sampleMap, _ := GroupByWorkout(allSamples);
    var tcx := BuildTcx(workouts, sampleMap, toIso);
    file := Some(tcx);
  }
}
