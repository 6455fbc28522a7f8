/** Chord sequences: timed chord and rest events joined with `|`, their
    total length, their chord names (plain and in a key), their text and a
    walk that pairs each event with its metric position. A sequence of `N`
    events is a sequence of length `N`. */
module ChordSequence {
  import opened Common
  import opened Notes
  import opened Durations
  import opened ChordPatterns
  import opened ChordMatcher
  import opened DegreeMapper
  import Scales
  import Timing

  /** `chord_event`: a chord held for a duration, or a rest, possibly tied
      to the next event. */
  datatype ChordEvent = ChordEvent(chord: ChordInstance, dur: Duration, isRest: bool, isTied: bool)

  type ChordSeq = seq<ChordEvent>

  /** `tied()`: the same event, tied to the next one. */
  function Tied(e: ChordEvent): (r: ChordEvent)
    ensures r.isTied
    ensures r.chord == e.chord && r.dur == e.dur && r.isRest == e.isRest
  {
    e.(isTied := true)
  }

  /** `chord * d`: a sounding, untied event. */
  function Timed(c: ChordInstance, d: Duration): (r: ChordEvent)
    ensures !r.isRest && !r.isTied && r.chord == c && r.dur == d
  {
    ChordEvent(c, d, false, false)
  }

  /** `slash_chord * d`: one chord of all the slash chord's notes, the bass
      first and then the chord tones in their order. */
  function SlashTimed(s: SlashChord, d: Duration): (r: ChordEvent)
    ensures !r.isRest && !r.isTied && r.dur == d
    ensures |r.chord.notes| == |s.chord.notes| + 1
    ensures r.chord.notes[0] == s.bass && r.chord.notes[1..] == s.chord.notes
  {
    ChordEvent(ChordInstance(AllNotes(s)), d, false, false)
  }

  /** A slash chord that the constructor accepts sounds its bass strictly
      below every other note of the combined event. */
  lemma {:induction false} SlashTimedBassIsLowest(ch: ChordInstance, bass: Note, d: Duration)
    requires |ch.notes| >= 1 && SlashOf(ch, bass).Some?
    ensures var notes := SlashTimed(SlashOf(ch, bass).value, d).chord.notes;
            notes[0] == bass &&
            forall i | 1 <= i < |notes| :: Midi(notes[i]) > Midi(bass)
  {
    SlashOfFacts(ch, bass);
    var s := SlashOf(ch, bass).value;
    var notes := SlashTimed(s, d).chord.notes;
    forall i | 1 <= i < |notes| ensures Midi(notes[i]) > Midi(bass) {
      assert notes[i] == notes[1..][i - 1] == s.chord.notes[i - 1];
    }
  }

  /** `chord_rest(d)`: a rest event of one default note. */
  function ChordRest(d: Duration): (r: ChordEvent)
    ensures r.isRest && !r.isTied && r.dur == d
    ensures r.chord.notes == [DefaultNote]
  {
    ChordEvent(ChordInstance([DefaultNote]), d, true, false)
  }

  // ----- building sequences with `|` -----

  /** `event | event`: a sequence of two. */
  function Pair(a: ChordEvent, b: ChordEvent): (r: ChordSeq)
    ensures |r| == 2 && r[0] == a && r[1] == b
  {
    [a, b]
  }

  /** `sequence | event`: one event longer, the new one last. */
  function Append(s: ChordSeq, e: ChordEvent): (r: ChordSeq)
    ensures |r| == |s| + 1 && r[..|s|] == s && r[|s|] == e
  {
    s + [e]
  }

  /** `sequence | sequence`: the events of the first, then of the second. */
  function Concat(a: ChordSeq, b: ChordSeq): (r: ChordSeq)
    ensures |r| == |a| + |b| && r[..|a|] == a && r[|a|..] == b
  {
    a + b
  }

  /** Joining is associative, appending an event joins a sequence of one,
      and a pair is two appends. */
  lemma {:induction false} JoinLaws(a: ChordSeq, b: ChordSeq, c: ChordSeq, e: ChordEvent, f: ChordEvent)
    ensures Concat(Concat(a, b), c) == Concat(a, Concat(b, c))
    ensures Append(a, e) == Concat(a, [e])
    ensures Pair(e, f) == Append(Append([], e), f)
  {
    assert Concat(Concat(a, b), c) == a + b + c;
  }

  // ----- total length -----

  /** `total_duration()`: every event's duration, rests included, added
      from `0/1` in order. */
  function Total(s: ChordSeq): Duration
    decreases |s|
  {
    if s == [] then Duration(0, 1)
    else Durations.Add(Total(s[..|s| - 1]), s[|s| - 1].dur)
  }

  method TotalDuration(s: ChordSeq) returns (sum: Duration)
    ensures sum == Total(s)
  {
    sum := Duration(0, 1);
    for i := 0 to |s|
      invariant sum == Total(s[..i])
    {
      assert s[..i + 1][..i] == s[..i];
      sum := Durations.Add(sum, s[i].dur);
    }
    assert s[..|s|] == s;
  }

  /** The durations of the events, in order. */
  function Lengths(s: ChordSeq): (r: seq<Duration>)
    ensures |r| == |s|
  {
    seq(|s|, i requires 0 <= i < |s| => s[i].dur)
  }

  /** The lengths of a prefix and of a concatenation. */
  lemma {:induction false} LengthsSplit(a: ChordSeq, b: ChordSeq, n: nat)
    requires n <= |a|
    ensures Lengths(a + b) == Lengths(a) + Lengths(b)
    ensures Lengths(a[..n]) == Lengths(a)[..n]
    ensures Timing.AllWf(Lengths(a)) ==> Timing.AllWf(Lengths(a[..n]))
  {
    var l := Lengths(a + b);
    assert forall i | 0 <= i < n :: Lengths(a[..n])[i] == Lengths(a)[i];
    assert forall i | 0 <= i < |a| :: l[i] == Lengths(a)[i];
    assert forall i | |a| <= i < |l| :: l[i] == Lengths(b)[i - |a|];
    assert l == Lengths(a) + Lengths(b);
  }

  /** The total depends on the lengths alone: whether an event is a rest,
      tied, or which chord it sounds does not change it. */
  lemma {:induction false} TotalOfLengths(s: ChordSeq, t: ChordSeq)
    requires Lengths(s) == Lengths(t)
    ensures Total(s) == Total(t)
    decreases |s|
  {
    if s != [] {
      var n := |s| - 1;
      LengthsSplit(s, [], n);
      LengthsSplit(t, [], n);
      assert s[n].dur == Lengths(s)[n] == Lengths(t)[n] == t[n].dur;
      TotalOfLengths(s[..n], t[..n]);
    }
  }

  /** The total is the sum of the lengths of all events. */
  lemma {:induction false} TotalIsSum(s: ChordSeq)
    requires Timing.AllWf(Lengths(s))
    ensures Wf(Total(s)) && Value(Total(s)) == Timing.TotalValue(Lengths(s))
    decreases |s|
  {
    if s != [] {
      var n := |s| - 1;
      LengthsSplit(s, [], n);
      TotalIsSum(s[..n]);
      assert Wf(s[n].dur) by { assert Lengths(s)[n] == s[n].dur; }
      AddValue(Total(s[..n]), s[n].dur);
    }
  }

  /** The total of a joined sequence is the sum of the two totals. */
  lemma {:induction false} TotalOfConcat(a: ChordSeq, b: ChordSeq)
    requires Timing.AllWf(Lengths(a)) && Timing.AllWf(Lengths(b))
    ensures Timing.AllWf(Lengths(a + b))
    ensures Wf(Total(a)) && Wf(Total(b)) && Wf(Total(a + b))
    ensures Value(Total(a + b)) == Value(Total(a)) + Value(Total(b))
  {
    LengthsSplit(a, b, 0);
    Timing.SumOfConcat(Lengths(a), Lengths(b));
    TotalIsSum(a);
    TotalIsSum(b);
    TotalIsSum(a + b);
  }

  // ----- chord names -----

  /** Every sounding event has a chord to analyse. */
  predicate Analysable(s: ChordSeq) {
    forall i | 0 <= i < |s| :: !s[i].isRest ==> |s[i].chord.notes| >= 1
  }

  /** The name of the top interpretation, or "?" when there is none. */
  function TopName(rs: seq<Analysis>): (r: string)
    ensures rs == [] <==> r == "?"
    ensures r != "" && r[0] != '-'
    ensures rs != [] ==> r == AnalysisStr(rs[0])
  {
    if rs == [] then "?"
    else
      var a := AnalysisStr(rs[0]);
      assert a[0] == PitchName(Simplify(rs[0].root, Natural))[0];
      assert a[0] != '?' && a[0] != '-' by { assert a[0] in Letters; }
      a
  }

  /** What `names()` writes for one event. */
  function NameOf(e: ChordEvent): string
    requires !e.isRest ==> |e.chord.notes| >= 1
  {
    if e.isRest then "-" else TopName(AnalyzeAllSpec(e.chord.notes))
  }

  /** A name says "-" exactly for a rest and "?" exactly for a chord with
      no interpretation; otherwise it is the top interpretation's text. */
  lemma {:induction false} NameOfMeaning(e: ChordEvent)
    requires !e.isRest ==> |e.chord.notes| >= 1
    ensures NameOf(e) != ""
    ensures NameOf(e) == "-" <==> e.isRest
    ensures NameOf(e) == "?" <==> !e.isRest && AnalyzeAllSpec(e.chord.notes) == []
    ensures !e.isRest && AnalyzeAllSpec(e.chord.notes) != [] ==>
              NameOf(e) == AnalysisStr(AnalyzeAllSpec(e.chord.notes)[0])
  {
  }

  function NameList(s: ChordSeq): (r: seq<string>)
    requires Analysable(s)
    ensures |r| == |s|
  {
    seq(|s|, i requires 0 <= i < |s| && Analysable(s) => NameOf(s[i]))
  }

  /** `names()`: the events' names separated by " - ". */
  function Names(s: ChordSeq): string
    requires Analysable(s)
  {
    Join(NameList(s), " - ")
  }

  /** The separator goes in front of a part exactly when the text so far
      is not empty, which, with no empty parts, is from the second part on. */
  lemma {:induction false} JoinNext(parts: seq<string>, sep: string, i: nat, r: string)
    requires i < |parts| && parts[0] != "" && r == Join(parts[..i], sep)
    ensures (if r != "" then r + sep else r) + parts[i] == Join(parts[..i + 1], sep)
  {
    assert parts[..i + 1][..i] == parts[..i];
    if i > 0 {
      assert parts[..i][0] == parts[0];
    }
  }

  /** One event's part of `names()` as the source builds it. */
  method EventName(e: ChordEvent) returns (name: string)
    requires !e.isRest ==> |e.chord.notes| >= 1
    ensures name == NameOf(e)
  {
    if e.isRest {
      return "-";
    }
    var a := AnalyzeAll(e.chord.notes);
    name := if a == [] then "?" else AnalysisStr(a[0]);
  }

  /** `names()` as the source builds it: the separator goes in front of
      every name once the text is no longer empty. */
  method RenderNames(s: ChordSeq) returns (r: string)
    requires Analysable(s)
    ensures r == Names(s)
  {
    ghost var parts := NameList(s);
    if |s| > 0 {
      NameOfMeaning(s[0]);
    }
    r := "";
    for i := 0 to |s|
      invariant r == Join(parts[..i], " - ")
    {
      ghost var before := r;
      if r != "" {
        r := r + " - ";
      }
      var name := EventName(s[i]);
      JoinNext(parts, " - ", i, before);
      r := r + name;
    }
    assert parts[..|s|] == parts;
  }

  /** The names of a joined sequence are the two name lists with " - "
      between them. */
  lemma {:induction false} NamesOfConcat(a: ChordSeq, b: ChordSeq)
    requires Analysable(a) && Analysable(b) && |a| >= 1 && |b| >= 1
    ensures Analysable(a + b)
    ensures Names(a + b) == Names(a) + " - " + Names(b)
  {
    var ab := a + b;
    assert Analysable(ab) by {
      forall i | 0 <= i < |ab| && !ab[i].isRest
        ensures |ab[i].chord.notes| >= 1
      {
        if i < |a| { assert ab[i] == a[i]; } else { assert ab[i] == b[i - |a|]; }
      }
    }
    var l, la, lb := NameList(ab), NameList(a), NameList(b);
    forall i | 0 <= i < |ab|
      ensures l[i] == (la + lb)[i]
    {
      if i < |a| { assert ab[i] == a[i]; } else { assert ab[i] == b[i - |a|]; }
    }
    assert l == la + lb;
    JoinConcat(NameList(a), NameList(b), " - ");
  }

  // ----- chord names in a key -----

  /** A degree analysis always has text. */
  lemma {:induction false} RomanNotEmpty(a: Analysis, scale: seq<Note>)
    ensures DegreeAnalysisOf(a, scale).roman != ""
  {
    var pc := Pitch(Simplify(a.root, Natural));
    match Placement(scale, pc)
    case Some(d) =>
      var numerals := if IsMajorQuality(a.quality) then RomanUpper else RomanLower;
      assert numerals[(d.num - 1) % 7] != "";
    case None =>
      assert AnalysisStr(a) != "" by { assert |PitchName(Simplify(a.root, Natural))| >= 1; }
  }

  /** What `roman(key)` writes for one event. */
  function RomanOf(e: ChordEvent, key: Scales.ScaleInstance): (r: string)
    requires !e.isRest ==> |e.chord.notes| >= 1
    ensures r != ""
    ensures e.isRest ==> r == "-"
    ensures !e.isRest && AnalyzeInKeySpec(e.chord.notes, key.notes) == [] ==> r == "?"
    ensures !e.isRest && AnalyzeInKeySpec(e.chord.notes, key.notes) != [] ==>
              r == AnalyzeInKeySpec(e.chord.notes, key.notes)[0].roman
  {
    if e.isRest then "-"
    else
      var rs := AnalyzeInKeySpec(e.chord.notes, key.notes);
      if rs == [] then "?"
      else
        assert rs[0] == DegreeAnalysisOf(AnalyzeAllSpec(e.chord.notes)[0], key.notes);
        RomanNotEmpty(AnalyzeAllSpec(e.chord.notes)[0], key.notes);
        rs[0].roman
  }

  function RomanList(s: ChordSeq, key: Scales.ScaleInstance): (r: seq<string>)
    requires Analysable(s)
    ensures |r| == |s|
  {
    seq(|s|, i requires 0 <= i < |s| && Analysable(s) => RomanOf(s[i], key))
  }

  /** `roman(key)`: the events' names in the key separated by " - ". */
  function Roman(s: ChordSeq, key: Scales.ScaleInstance): string
    requires Analysable(s)
  {
    Join(RomanList(s, key), " - ")
  }

  /** One event's part of `roman(key)` as the source builds it. */
  method EventRoman(e: ChordEvent, key: Scales.ScaleInstance) returns (name: string)
    requires !e.isRest ==> |e.chord.notes| >= 1
    ensures name == RomanOf(e, key)
  {
    if e.isRest {
      return "-";
    }
    var a := AnalyzeInKey(e.chord.notes, key.notes);
    name := if a == [] then "?" else a[0].roman;
  }

  /** `roman(key)` as the source builds it. */
  method RenderRoman(s: ChordSeq, key: Scales.ScaleInstance) returns (r: string)
    requires Analysable(s)
    ensures r == Roman(s, key)
  {
    ghost var parts := RomanList(s, key);
    r := "";
    for i := 0 to |s|
      invariant r == Join(parts[..i], " - ")
    {
      ghost var before := r;
      if r != "" {
        r := r + " - ";
      }
      var name := EventRoman(s[i], key);
      JoinNext(parts, " - ", i, before);
      r := r + name;
    }
    assert parts[..|s|] == parts;
  }

  /** Rests read "-" in a key as they do without one. */
  lemma {:induction false} RomanOfRest(s: ChordSeq, key: Scales.ScaleInstance, i: nat)
    requires Analysable(s) && i < |s| && s[i].isRest
    ensures RomanList(s, key)[i] == "-" == NameList(s)[i]
  {
  }

  // ----- text -----

  /** `str()` of one event: the top chord name ("?" when there is none) or
      "-" for a rest, the duration in parentheses, then "~" when a sounding
      event is tied. */
  function EventStr(e: ChordEvent): string
    requires !e.isRest ==> |e.chord.notes| >= 1
  {
    if e.isRest then "-(" + Durations.Str(e.dur) + ")"
    else NameOf(e) + "(" + Durations.Str(e.dur) + ")" + (if e.isTied then "~" else "")
  }

  /** A name, a parenthesised length and an optional tie mark: the name is a
      prefix followed by '(', and the text ends in '~' exactly when marked. */
  lemma {:induction false} FramedShape(n: string, d: string, t: string)
    requires t == "" || t == "~"
    ensures var s := n + "(" + d + ")" + t;
            |n| < |s| && s[..|n|] == n && s[|n|] == '(' && (s[|s| - 1] == '~' <==> t == "~")
  {
    var s := n + "(" + d + ")" + t;
    assert s == n + ("(" + d + ")" + t);
  }

  /** An event's text is its name followed by the duration in parentheses,
      with "~" at the end exactly for a tied sounding event. */
  lemma {:induction false} EventStrShape(e: ChordEvent)
    requires !e.isRest ==> |e.chord.notes| >= 1
    ensures var s, n := EventStr(e), NameOf(e);
            |n| < |s| && s[..|n|] == n && s[|n|] == '('
    ensures var s := EventStr(e);
            s[|s| - 1] == '~' <==> !e.isRest && e.isTied
    ensures e.isRest ==> EventStr(e) == "-(" + Durations.Str(e.dur) + ")"
  {
    var d := Durations.Str(e.dur);
    var n := NameOf(e);
    var t := if !e.isRest && e.isTied then "~" else "";
    FramedShape(n, d, t);
    assert EventStr(e) == n + "(" + d + ")" + t;
  }

  /** `str()` of one event as the source builds it. */
  method EventText(e: ChordEvent) returns (t: string)
    requires !e.isRest ==> |e.chord.notes| >= 1
    ensures t == EventStr(e)
  {
    if e.isRest {
      return "-(" + Durations.Str(e.dur) + ")";
    }
    var a := AnalyzeAll(e.chord.notes);
    var name := if a == [] then "?" else AnalysisStr(a[0]);
    t := name + "(" + Durations.Str(e.dur) + ")";
    if e.isTied {
      t := t + "~";
    }
  }

  function Parts(s: ChordSeq): (r: seq<string>)
    requires Analysable(s)
    ensures |r| == |s|
  {
    seq(|s|, i requires 0 <= i < |s| && Analysable(s) => EventStr(s[i]))
  }

  /** `str()` of a sequence: the events' texts separated by single spaces. */
  function Str(s: ChordSeq): string
    requires Analysable(s)
  {
    Join(Parts(s), " ")
  }

  /** `str()` as the source builds it. */
  method Render(s: ChordSeq) returns (r: string)
    requires Analysable(s)
    ensures r == Str(s)
  {
    ghost var parts := Parts(s);
    if |s| > 0 {
      EventStrShape(s[0]);
    }
    r := "";
    for i := 0 to |s|
      invariant r == Join(parts[..i], " ")
    {
      ghost var before := r;
      if r != "" {
        r := r + " ";
      }
      var text := EventText(s[i]);
      JoinNext(parts, " ", i, before);
      r := r + text;
    }
    assert parts[..|s|] == parts;
  }

  /** The text of a joined sequence is the two texts with one space
      between them. */
  lemma {:induction false} StrOfConcat(a: ChordSeq, b: ChordSeq)
    requires Analysable(a) && Analysable(b) && |a| >= 1 && |b| >= 1
    ensures Analysable(a + b)
    ensures Str(a + b) == Str(a) + " " + Str(b)
  {
    assert forall i | 0 <= i < |a + b| :: (a + b)[i] == if i < |a| then a[i] else b[i - |a|];
    assert Parts(a + b) == Parts(a) + Parts(b);
    JoinConcat(Parts(a), Parts(b), " ");
  }

  // ----- walking with positions -----

  /** What the `walk` callback receives for one event. */
  datatype Visit = Visit(event: ChordEvent, position: Timing.MetricPosition)

  /** Each event with the metric position at which it starts. */
  function Visits(s: ChordSeq, ts: Timing.TimeSignature): (r: seq<Visit>)
    requires Timing.PositiveBar(ts) && Timing.AllWf(Lengths(s))
    ensures |r| == |s|
  {
    var ps := Timing.WalkPositions(Lengths(s), ts);
    seq(|s|, i requires 0 <= i < |s| => Visit(s[i], ps[i]))
  }

  /** `walk(ts, f)`: the callback is not modelled; the result is the
      sequence of calls it receives. */
  method Walk(s: ChordSeq, ts: Timing.TimeSignature) returns (r: seq<Visit>)
    requires Timing.PositiveBar(ts) && Timing.AllWf(Lengths(s))
    ensures r == Visits(s, ts)
  {
    var ps := Timing.Walk(Lengths(s), ts);
    r := seq(|s|, i requires 0 <= i < |s| => Visit(s[i], ps[i]));
  }

  /** The callback sees every event once and in order; the first starts at
      bar 0, offset 0, and each later one where the events before it end. */
  lemma {:induction false} WalkVisitsEvents(s: ChordSeq, ts: Timing.TimeSignature, i: nat)
    requires Timing.PositiveBar(ts) && Timing.AllWf(Lengths(s)) && i < |s|
    ensures Visits(s, ts)[i].event == s[i]
    ensures i == 0 ==> Visits(s, ts)[i].position == Timing.Start
    ensures Timing.AllWf(Lengths(s[..i])) && Wf(Total(s[..i])) && Wf(Timing.BarDuration(ts))
    ensures Visits(s, ts)[i].position == Timing.EndPosition(Lengths(s[..i]), ts)
    ensures Wf(Visits(s, ts)[i].position.offset)
    ensures Timing.Elapsed(Visits(s, ts)[i].position, Value(Timing.BarDuration(ts))) == Value(Total(s[..i]))
  {
    LengthsSplit(s, [], i);
    Timing.WalkVisitsEachEvent(Lengths(s), ts, i);
    Timing.EndPositionKeepsTime(Lengths(s[..i]), ts);
    TotalIsSum(s[..i]);
  }
}
