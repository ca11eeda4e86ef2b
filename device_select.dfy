/**
 * Heuristic choice of the capture device (`select_system_audio_device` in
 * src-tauri/src/audio.rs): every enumerated input device is scored by the
 * first entry of the platform's name table that its lower-cased name
 * contains, the scores are sorted in descending order by a stable sort, and
 * the first device after sorting is taken. Without any enumerated device the
 * host's default input is used.
 */
module DeviceSelect {
  import opened Wrappers
  import opened Text

  /** The `target_os` the program was built for. */
  datatype Platform = Windows | MacOS | Linux | OtherOs

  /** The per-platform score table; 10 when no entry matches. */
  function Score(p: Platform, lower: string): int {
    match p
    case Windows =>
      if Contains(lower, "stereo mix") || Contains(lower, "what u hear") then 100
      else if Contains(lower, "cable") then 90
      else if Contains(lower, "voicemeeter") then 85
      else if Contains(lower, "virtual") || Contains(lower, "loopback") then 70
      else 10
    case MacOS =>
      if Contains(lower, "blackhole") then 100
      else if Contains(lower, "loopback") then 95
      else if Contains(lower, "soundflower") then 90
      else 10
    case Linux =>
      if Contains(lower, "monitor") then 100
      else if Contains(lower, "loopback") then 80
      else 10
    case OtherOs => 10
  }

  /** A device's score: its name, or "Unknown" when the name cannot be read, lower-cased. */
  function DeviceScore(p: Platform, name: Option<string>): int {
    Score(p, LowerStr(name.GetOr("Unknown")))
  }

  /** One `(score, device, name)` entry of `scored`; the device is its enumeration index. */
  datatype Candidate = Candidate(score: int, index: nat)

  /** The push loop over the enumerated devices. */
  function ScoreAll(p: Platform, names: seq<Option<string>>): (r: seq<Candidate>)
    ensures |r| == |names|
    ensures forall i :: 0 <= i < |r| ==> r[i] == Candidate(DeviceScore(p, names[i]), i)
  {
    seq(|names|, i requires 0 <= i < |names| => Candidate(DeviceScore(p, names[i]), i))
  }

  /**
   * Inserts `c` after every entry whose score is at least its own: the step of
   * a stable sort by descending score.
   */
  function Insert(c: Candidate, sorted: seq<Candidate>): (r: seq<Candidate>)
    ensures multiset(r) == multiset(sorted) + multiset{c}
    decreases |sorted|
  {
    if sorted == [] then [c]
    else if sorted[0].score >= c.score then
      assert sorted == [sorted[0]] + sorted[1..];
      [sorted[0]] + Insert(c, sorted[1..])
    else [c] + sorted
  }

  /**
   * `scored.sort_by(|a, b| b.0.cmp(&a.0))`. A stable sort has exactly one
   * possible outcome, so this insertion sort is that outcome.
   */
  function SortByScoreDesc(cs: seq<Candidate>): (r: seq<Candidate>)
    ensures multiset(r) == multiset(cs)
    decreases |cs|
  {
    if cs == [] then []
    else
      assert cs == cs[..|cs| - 1] + [cs[|cs| - 1]];
      Insert(cs[|cs| - 1], SortByScoreDesc(cs[..|cs| - 1]))
  }

  /** `a` comes before `b` in a stable descending sort of increasing indices. */
  predicate Before(a: Candidate, b: Candidate) {
    a.score > b.score || (a.score == b.score && a.index < b.index)
  }

  predicate Ordered(cs: seq<Candidate>) {
    forall i, j :: 0 <= i < j < |cs| ==> Before(cs[i], cs[j])
  }

  predicate IncreasingIndices(cs: seq<Candidate>) {
    forall i, j :: 0 <= i < j < |cs| ==> cs[i].index < cs[j].index
  }

  lemma {:induction false} InsertOrdered(c: Candidate, sorted: seq<Candidate>)
    requires Ordered(sorted)
    requires forall x :: x in sorted ==> x.index < c.index
    ensures Ordered(Insert(c, sorted))
    decreases |sorted|
  {
    if sorted != [] && sorted[0].score >= c.score {
      var rest := sorted[1..];
      assert forall x :: x in rest ==> x in sorted;
      InsertOrdered(c, rest);
      var ins := Insert(c, rest);
      HeadBeforeAll(c, sorted, ins);
      var r := [sorted[0]] + ins;
      forall i, j | 0 <= i < j < |r| ensures Before(r[i], r[j]) {
        assert r[j] == ins[j - 1];
        if i > 0 {
          assert r[i] == ins[i - 1];
        }
      }
      assert Insert(c, sorted) == r;
    } else if sorted != [] {
      var r := [c] + sorted;
      forall i, j | 0 <= i < j < |r| ensures Before(r[i], r[j]) {
        if i == 0 {
          assert sorted[0].score >= r[j].score;
        } else {
          assert r[i] == sorted[i - 1] && r[j] == sorted[j - 1];
        }
      }
    }
  }

  /** The head of an ordered list comes before whatever is inserted, after it, into its tail. */
  lemma HeadBeforeAll(c: Candidate, sorted: seq<Candidate>, ins: seq<Candidate>)
    requires Ordered(sorted) && sorted != [] && sorted[0].score >= c.score
    requires forall x :: x in sorted ==> x.index < c.index
    requires multiset(ins) == multiset(sorted[1..]) + multiset{c}
    ensures forall j :: 0 <= j < |ins| ==> Before(sorted[0], ins[j])
  {
    forall j | 0 <= j < |ins| ensures Before(sorted[0], ins[j]) {
      assert ins[j] in multiset(ins);
      if ins[j] != c {
        assert ins[j] in multiset(sorted[1..]);
        var k :| 0 <= k < |sorted[1..]| && sorted[1..][k] == ins[j];
        assert sorted[k + 1] == ins[j];
      } else {
        assert sorted[0] in sorted;
      }
    }
  }

  /** The sort orders entries by descending score and, among equal scores, by enumeration order. */
  lemma {:induction false} SortOrdered(cs: seq<Candidate>)
    requires IncreasingIndices(cs)
    ensures Ordered(SortByScoreDesc(cs))
    decreases |cs|
  {
    if cs != [] {
      var front := cs[..|cs| - 1];
      var last := cs[|cs| - 1];
      SortOrdered(front);
      var sorted := SortByScoreDesc(front);
      forall x | x in sorted ensures x.index < last.index {
        assert x in multiset(front);
        var k :| 0 <= k < |front| && front[k] == x;
      }
      InsertOrdered(last, sorted);
    }
  }

  /**
   * The first entry after sorting is the earliest enumerated device among
   * those of maximal score.
   */
  predicate IsFirstBest(p: Platform, names: seq<Option<string>>, k: nat) {
    && k < |names|
    && (forall j :: 0 <= j < |names| ==> DeviceScore(p, names[j]) <= DeviceScore(p, names[k]))
    && (forall j :: 0 <= j < k ==> DeviceScore(p, names[j]) < DeviceScore(p, names[k]))
  }

  lemma HeadIsFirstBest(p: Platform, names: seq<Option<string>>)
    requires |names| > 0
    ensures |SortByScoreDesc(ScoreAll(p, names))| > 0
    ensures IsFirstBest(p, names, SortByScoreDesc(ScoreAll(p, names))[0].index)
  {
    var cs := ScoreAll(p, names);
    SortedHead(cs);
    var k := SortByScoreDesc(cs)[0].index;
    assert forall j :: 0 <= j < |names| ==> cs[j].score == DeviceScore(p, names[j]);
  }

  /**
   * Sorting candidates listed by index puts first the one of highest score
   * and, among those, of lowest index.
   */
  lemma SortedHead(cs: seq<Candidate>)
    requires |cs| > 0 && forall i :: 0 <= i < |cs| ==> cs[i].index == i
    ensures var r := SortByScoreDesc(cs);
      && |r| > 0 && r[0].index < |cs|
      && (forall j :: 0 <= j < |cs| ==> cs[j].score <= cs[r[0].index].score)
      && (forall j :: 0 <= j < r[0].index ==> cs[j].score < cs[r[0].index].score)
  {
    var r := SortByScoreDesc(cs);
    SortOrdered(cs);
    SortSameElements(cs);
    assert cs[0] in r;
    assert r[0] in r;
    assert r[0] in cs;
    var m :| 0 <= m < |cs| && cs[m] == r[0];
    var k := r[0].index;
    forall j | 0 <= j < |cs|
      ensures cs[j].score <= cs[k].score
      ensures j < k ==> cs[j].score < cs[k].score
    {
      assert cs[j] in cs;
      assert cs[j] in r;
      var q :| 0 <= q < |r| && r[q] == cs[j];
      if q > 0 {
        assert Before(r[0], r[q]);
      }
    }
  }

  /** The sort keeps exactly the entries it is given. */
  lemma SortSameElements(cs: seq<Candidate>)
    ensures forall x :: x in SortByScoreDesc(cs) <==> x in cs
  {
    var r := SortByScoreDesc(cs);
    forall x ensures x in r <==> x in cs {
      assert x in r <==> x in multiset(r);
      assert x in cs <==> x in multiset(cs);
    }
  }

  /** The device the capture uses. */
  datatype DeviceChoice = Enumerated(index: nat) | DefaultInput

  /**
   * `select_system_audio_device`. `devices` is the enumeration (the name of
   * each device, when readable, or the enumeration error); `hasDefaultInput`
   * whether the host has a default input device.
   */
  function SelectDevice(p: Platform, devices: Result<seq<Option<string>>, string>, hasDefaultInput: bool)
    : (r: Result<DeviceChoice, string>)
    ensures devices.Err? ==> r == Err("enumerate devices failed: " + devices.error)
    ensures devices.Ok? && |devices.value| > 0 ==>
      r.Ok? && r.value.Enumerated? && IsFirstBest(p, devices.value, r.value.index)
    ensures devices.Ok? && devices.value == [] && hasDefaultInput ==> r == Ok(DefaultInput)
    ensures devices.Ok? && devices.value == [] && !hasDefaultInput ==> r == Err("no input device")
  {
    if devices.Err? then Err("enumerate devices failed: " + devices.error)
    else
      var sorted := SortByScoreDesc(ScoreAll(p, devices.value));
      if sorted != [] then
        HeadIsFirstBest(p, devices.value);
        Ok(Enumerated(sorted[0].index))
      else if hasDefaultInput then Ok(DefaultInput)
      else Err("no input device")
  }
}
