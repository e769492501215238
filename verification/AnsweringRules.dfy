/**
 The detector's rules spelled out: what a frame adds to the history, how the history is cut into
 stretches and words, what each frame decides, and the verdicts on a few calls.
 */
module AnsweringRules {
  import opened Basics
  import opened AnsweringMachine

  // ---------- the history ----------

  /** What a frame adds. Voice brings its own length and the silence at its end; a frame without
      audio counts as silence of twice the longest wait. */
  lemma FrameIsHeard(cfg: Config, h: History, f: Frame)
    ensures f.OtherFrame? ==> Hear(cfg, h, f) == h
    ensures f.VoiceFrame? ==>
              Hear(cfg, h, f) == History(f.silence, h.total + f.length,
                                         h.heard + [if f.silence > 0 then Silence(f.silence) else Voice(f.length)])
    ensures f.NullFrame? && h.silence + 2 * cfg.maxWait > 0 ==>
              Hear(cfg, h, f) == History(h.silence + 2 * cfg.maxWait, h.total + 2 * cfg.maxWait,
                                         h.heard + [Silence(h.silence + 2 * cfg.maxWait)])
    ensures f.NullFrame? && h.silence + 2 * cfg.maxWait <= 0 ==>
              Hear(cfg, h, f) == History(h.silence + 2 * cfg.maxWait, h.total + 2 * cfg.maxWait,
                                         h.heard + [Voice(2 * cfg.maxWait)])
  {
  }

  /** Nothing but frames without audio: the silence is as long as the time. */
  lemma {:induction false} NoAudioIsSilence(cfg: Config, events: seq<Event>)
    requires forall i :: 0 <= i < |events| ==> events[i].Read? && events[i].frame.NullFrame?
    ensures var h := HistoryOf(cfg, events); h.silence == h.total == 2 * cfg.maxWait * |events|
  {
    if events != [] {
      var front := events[..|events| - 1];
      NoAudioIsSilence(cfg, front);
      assert 2 * cfg.maxWait * |events| == 2 * cfg.maxWait * |front| + 2 * cfg.maxWait;
    }
  }

  // ---------- stretches and words ----------

  /** Stretches with what stood between them. */
  function Rebuilt(r: seq<seq<Heard>>, seps: seq<Heard>): seq<Heard>
    requires |r| == |seps| + 1
    decreases |r|
  {
    if seps == [] then r[0]
    else Rebuilt(r[..|r| - 1], seps[..|seps| - 1]) + [seps[|seps| - 1]] + r[|r| - 1]
  }

  predicate Long(cfg: Config, x: Heard) {
    match x
    case Voice(_) => false
    case Silence(d) => d >= cfg.betweenWordsSilence
  }

  /** The history is cut exactly at its long silences: with them between the stretches it is whole
      again, and none is inside a stretch. */
  lemma {:induction false} StretchesAreCut(cfg: Config, heard: seq<Heard>) returns (seps: seq<Heard>)
    ensures |Stretches(cfg, heard)| == |seps| + 1 && Rebuilt(Stretches(cfg, heard), seps) == heard
    ensures forall x :: x in seps ==> Long(cfg, x)
    ensures forall q, x :: q in Stretches(cfg, heard) && x in q ==> !Long(cfg, x)
  {
    if heard == [] {
      seps := [];
    } else {
      var front, x := heard[..|heard| - 1], heard[|heard| - 1];
      assert heard == front + [x];
      seps := StretchesAreCut(cfg, front);
      var r := Stretches(cfg, front);
      if Ends(cfg, x) {
        StretchEnds(cfg, front, x);
        assert (r + [[]])[..|r|] == r && (seps + [x])[..|seps|] == seps;
        seps := seps + [x];
      } else {
        LastGoesOn(cfg, front, x);
        RebuiltPush(r, seps, x);
      }
    }
  }

  lemma RebuiltPush(r: seq<seq<Heard>>, seps: seq<Heard>, x: Heard)
    requires |r| == |seps| + 1
    ensures Rebuilt(r[..|r| - 1] + [r[|r| - 1] + [x]], seps) == Rebuilt(r, seps) + [x]
  {
    var q := r[..|r| - 1] + [r[|r| - 1] + [x]];
    assert q[..|q| - 1] == r[..|r| - 1];
    if seps != [] {
      assert Rebuilt(r[..|r| - 1], seps[..|seps| - 1]) + [seps[|seps| - 1]] + (r[|r| - 1] + [x])
          == Rebuilt(r, seps) + [x];
    }
  }

  /** Some voice, and altogether as long as a word. */
  predicate LongEnough(cfg: Config, q: seq<Heard>) {
    (exists i :: 0 <= i < |q| && q[i].Voice?) && VoiceTime(q) >= cfg.minimumWordLength
  }

  ghost function WordSet(cfg: Config, r: seq<seq<Heard>>, first: nat): set<nat> {
    set i: nat | first <= i < |r| && LongEnough(cfg, r[i])
  }

  lemma {:induction false} WordsAreMembers(cfg: Config, r: seq<seq<Heard>>, first: nat)
    ensures WordsFrom(cfg, r, first) == |WordSet(cfg, r, first)|
    decreases |r|
  {
    if |r| <= first {
      assert WordSet(cfg, r, first) == {};
    } else {
      var front, n := r[..|r| - 1], |r| - 1;
      WordsAreMembers(cfg, front, first);
      forall i: nat
        ensures i in WordSet(cfg, front, first) <==> i < n && i in WordSet(cfg, r, first)
      {
        assert i < n ==> front[i] == r[i];
      }
      assert WordSet(cfg, r, first) == WordSet(cfg, front, first) + if LongEnough(cfg, r[n]) then {n} else {};
    }
  }

  /** The words are the stretches behind the first that have enough voice, and somebody has talked
      when any stretch has. */
  lemma WordsAreCounted(cfg: Config, heard: seq<Heard>)
    ensures var r := Stretches(cfg, heard); Words(cfg, heard) == |WordSet(cfg, r, 1)|
    ensures Talked(cfg, heard) <==> exists q :: q in Stretches(cfg, heard) && LongEnough(cfg, q)
  {
    var r := Stretches(cfg, heard);
    WordsAreMembers(cfg, r, 1);
    WordsExist(cfg, r);
    if Talked(cfg, heard) {
      var i :| 0 <= i < |r| && IsWord(cfg, r[i]);
      assert r[i] in r && LongEnough(cfg, r[i]);
    }
    if q :| q in r && LongEnough(cfg, q) {
      var i :| 0 <= i < |r| && r[i] == q;
      assert IsWord(cfg, r[i]);
    }
  }

  /** The time of voice adds up, and silences do not count. */
  lemma VoiceAddsUp(q: seq<Heard>, n: int, d: int)
    ensures VoiceTime([]) == 0
    ensures VoiceTime(q + [Voice(n)]) == VoiceTime(q) + n && VoiceTime(q + [Silence(d)]) == VoiceTime(q)
  {
    VoicePush(q, Voice(n));
    VoicePush(q, Silence(d));
  }

  // ---------- what a frame decides ----------

  /** The time is up when it reaches its limit, whatever the frame is. */
  lemma TimeIsUp(cfg: Config, h: History, wait: nat, f: Frame)
    requires !f.OtherFrame?
    ensures var total := h.total + if f.VoiceFrame? then f.length else 2 * cfg.maxWait;
            && (total >= cfg.totalAnalysisTime ==> Decision(cfg, h, Read(wait, f)) == Some(NotSure(total)))
            && (Decision(cfg, h, Read(wait, f)) == Some(NotSure(total)) && total < cfg.totalAnalysisTime ==> wait == 0)
  {
  }

  /** In time, a silence is a machine when nobody has talked for the initial silence, and a human when
      somebody has and the silence after it is long enough. */
  lemma SilenceDecides(cfg: Config, h: History, wait: nat, f: Frame)
    requires !f.OtherFrame? && Hear(cfg, h, f).total < cfg.totalAnalysisTime
    requires Hear(cfg, h, f).silence > 0
    ensures var d, talked := Hear(cfg, h, f).silence, Talked(cfg, h.heard);
            Decision(cfg, h, Read(wait, f))
            == if !talked && d >= cfg.initialSilence then Some(InitialSilence(d))
               else if talked && d >= cfg.afterGreetingSilence then Some(Human(d)) else None
  {
  }

  lemma VoiceHeeded(cfg: Config, before: seq<Heard>, h: History, n: int, wait: nat)
    requires h.total < cfg.totalAnalysisTime
    ensures var stretch, words, voice := VoiceTime(Last(cfg, h.heard)), Words(cfg, h.heard), VoiceTime(h.heard);
            Heeded(cfg, before, h, Voice(n), wait)
            == if stretch >= cfg.maximumWordLength then
                 Some(if wait == 0 then NotSure(h.total) else MaxWordLength(stretch))
               else if words >= cfg.maximumNumberOfWords then Some(MaxWords(words))
               else if Talked(cfg, before) && voice >= cfg.greeting then Some(LongGreeting(voice)) else None
  {
  }

  /** In time, a frame of voice is a machine when its stretch is too long for a word, when there are
      too many words, or when there was a word before and the voice is too long for a greeting. */
  lemma VoiceDecides(cfg: Config, h: History, wait: nat, f: Frame, n: int, heard: seq<Heard>)
    requires !f.OtherFrame? && Hear(cfg, h, f).total < cfg.totalAnalysisTime
    requires Hear(cfg, h, f).silence <= 0
    requires n == (if f.VoiceFrame? then f.length else 2 * cfg.maxWait) && heard == h.heard + [Voice(n)]
    ensures var stretch, words, voice := VoiceTime(Last(cfg, heard)), Words(cfg, heard), VoiceTime(heard);
            Decision(cfg, h, Read(wait, f))
            == if stretch >= cfg.maximumWordLength then
                 Some(if wait == 0 then NotSure(h.total + n) else MaxWordLength(stretch))
               else if words >= cfg.maximumNumberOfWords then Some(MaxWords(words))
               else if Talked(cfg, h.heard) && voice >= cfg.greeting then Some(LongGreeting(voice)) else None
  {
    var h' := Hear(cfg, h, f);
    assert h' == History(h'.silence, h.total + n, heard);
    assert Decision(cfg, h, Read(wait, f)) == Heeded(cfg, h.heard, h', Voice(n), wait);
    VoiceHeeded(cfg, h.heard, h', n, wait);
  }

  /** The end of the call decides, other frames do not. */
  lemma OthersDecide(cfg: Config, h: History, wait: nat)
    ensures Decision(cfg, h, Hangup(wait)) == Some(HungUp) && Decision(cfg, h, Read(wait, OtherFrame)) == None
  {
  }

  // ---------- a few calls ----------

  /** The usual parameters. */
  predicate Usual(cfg: Config) {
    cfg == Config(2500, 1500, 800, 5000, 100, 50, 3, 5000, 50)
  }

  function Say(n: nat): Event {
    Read(20, VoiceFrame(n, 0))
  }

  function Pause(d: nat): Event {
    Read(20, VoiceFrame(d, d))
  }

  /** The counters before each event of a call, none of which but the last decides. */
  predicate Rounds(cfg: Config, events: seq<Event>, cs: seq<Counters>) {
    && |cs| == |events| > 0 && cs[0] == NOTHING_COUNTED
    && forall i :: 0 <= i < |cs| - 1 ==> Round(cfg, cs[i], events[i]) == GoesOn(cs[i + 1])
  }

  lemma {:induction false} RoundsFollow(cfg: Config, events: seq<Event>, cs: seq<Counters>, n: nat)
    requires cfg.maxWait >= 0 && Rounds(cfg, events, cs) && n < |events|
    ensures cs[n] == CountersOf(cfg, HistoryOf(cfg, events[..n])) && Verdict(cfg, events, 0) == Verdict(cfg, events, n)
  {
    if n == 0 {
      NothingCounted(cfg);
      assert events[..0] == [];
    } else {
      RoundsFollow(cfg, events, cs, n - 1);
      RoundAt(cfg, events, n - 1, cs[n - 1]);
    }
  }

  /** The verdict of a call is the decision of its last round, or none. */
  lemma LastRound(cfg: Config, events: seq<Event>, cs: seq<Counters>)
    requires cfg.maxWait >= 0 && Rounds(cfg, events, cs)
    ensures match Round(cfg, cs[|cs| - 1], events[|cs| - 1])
            case Decides(r) => Verdict(cfg, events, 0) == r
            case GoesOn(_) => Verdict(cfg, events, 0) == NoStatus
  {
    var n := |events| - 1;
    RoundsFollow(cfg, events, cs, n);
    RoundAt(cfg, events, n, cs[n]);
  }

  lemma SayGoesOn(cfg: Config, c: Counters, n: nat)
    requires Usual(cfg) && c.total + n < 5000 && c.consecutive + n < 5000 && c.words < 2 && c.voice + n < 1500
    ensures var word := c.consecutive + n >= 100;
            Round(cfg, c, Say(n))
            == GoesOn(Counters(c.total + n, 0, c.words + Count(word && c.inSilence), c.inSilence && !word,
                               c.consecutive + n, c.voice + n, c.initialSilence && !(word && !c.inGreeting),
                               c.inGreeting || word))
  {
  }

  lemma PauseGoesOn(cfg: Config, c: Counters, d: nat)
    requires Usual(cfg) && c.total + d < 5000 && 0 < d < 800
    ensures Round(cfg, c, Pause(d))
         == GoesOn(Counters(c.total + d, d, c.words, c.inSilence || d >= 50, if d >= 50 then 0 else c.consecutive,
                            c.voice, c.initialSilence, c.inGreeting))
  {
  }

  lemma TwoRounds(cfg: Config, events: seq<Event>, c: Counters, o: Outcome)
    requires cfg.maxWait >= 0 && |events| == 2 && Round(cfg, NOTHING_COUNTED, events[0]) == GoesOn(c)
    requires Round(cfg, c, events[1]) == o
    ensures match o
            case Decides(r) => Verdict(cfg, events, 0) == r
            case GoesOn(_) => Verdict(cfg, events, 0) == NoStatus
  {
    LastRound(cfg, events, [NOTHING_COUNTED, c]);
  }

  lemma GreetingEnds(cfg: Config, c: Counters, d: nat)
    requires Usual(cfg) && (d == 799 || d == 800) && c == Counters(400, 0, 0, false, 400, 400, false, true)
    ensures if d == 800 then Round(cfg, c, Pause(d)) == Decides(Human(800)) else Round(cfg, c, Pause(d)).GoesOn?
  {
  }

  /** A short greeting and 800 ms of silence are a human; 799 ms are not yet. */
  lemma ShortGreeting(cfg: Config, events: seq<Event>, d: nat)
    requires Usual(cfg) && (d == 799 || d == 800)
    requires events == [Say(400), Pause(d)]
    ensures Verdict(cfg, events, 0) == if d == 800 then Human(800) else NoStatus
  {
    SayGoesOn(cfg, NOTHING_COUNTED, 400);
    var c := Counters(400, 0, 0, false, 400, 400, false, true);
    GreetingEnds(cfg, c, d);
    TwoRounds(cfg, events, c, Round(cfg, c, Pause(d)));
  }

  /** 2500 ms of silence at the beginning are a machine. */
  lemma SilentStart(cfg: Config, events: seq<Event>, d: nat)
    requires Usual(cfg) && (d == 2499 || d == 2500)
    requires events == [Pause(d)]
    ensures Verdict(cfg, events, 0) == if d == 2500 then InitialSilence(2500) else NoStatus
  {
    LastRound(cfg, events, [NOTHING_COUNTED]);
  }

  lemma FirstTalk(cfg: Config, c: Counters)
    requires Usual(cfg) && c == Counters(100, 0, 0, false, 100, 100, false, true)
    ensures Round(cfg, NOTHING_COUNTED, Say(100)) == GoesOn(c)
  {
    SayGoesOn(cfg, NOTHING_COUNTED, 100);
  }

  lemma TalkEnds(cfg: Config, c: Counters, n: nat)
    requires Usual(cfg) && (n == 1399 || n == 1400) && c == Counters(100, 0, 0, false, 100, 100, false, true)
    ensures if n == 1400 then Round(cfg, c, Say(n)) == Decides(LongGreeting(1500)) else Round(cfg, c, Say(n)).GoesOn?
  {
  }

  /** 1500 ms of voice with a word before are a machine. */
  lemma LongTalk(cfg: Config, events: seq<Event>, n: nat)
    requires Usual(cfg) && (n == 1399 || n == 1400)
    requires events == [Say(100), Say(n)]
    ensures Verdict(cfg, events, 0) == if n == 1400 then LongGreeting(1500) else NoStatus
  {
    var c := Counters(100, 0, 0, false, 100, 100, false, true);
    FirstTalk(cfg, c);
    TalkEnds(cfg, c, n);
    TwoRounds(cfg, events, c, Round(cfg, c, events[1]));
  }

  lemma ThirdWord(cfg: Config, c: Counters, n: nat)
    requires Usual(cfg) && (n == 99 || n == 100) && c == Counters(350, 50, 2, true, 0, 200, false, true)
    ensures if n == 100 then Round(cfg, c, Say(n)) == Decides(MaxWords(3)) else Round(cfg, c, Say(n)).GoesOn?
  {
  }

  /** Three words behind silences are a machine: each of them has 100 ms of voice, and each silence
      50 ms. A stretch of 99 ms is no word. */
  lemma ThreeWords(cfg: Config, events: seq<Event>, n: nat)
    requires Usual(cfg) && (n == 99 || n == 100)
    requires events == [Pause(50), Say(100), Pause(50), Say(100), Pause(50), Say(n)]
    ensures Verdict(cfg, events, 0) == if n == 100 then MaxWords(3) else NoStatus
  {
    var c1, c2 := Counters(50, 50, 0, true, 0, 0, true, false), Counters(150, 0, 1, false, 100, 100, false, true);
    var c3, c4 := Counters(200, 50, 1, true, 0, 100, false, true), Counters(300, 0, 2, false, 100, 200, false, true);
    var c5 := Counters(350, 50, 2, true, 0, 200, false, true);
    PauseGoesOn(cfg, NOTHING_COUNTED, 50);
    SayGoesOn(cfg, c1, 100);
    PauseGoesOn(cfg, c2, 50);
    SayGoesOn(cfg, c3, 100);
    PauseGoesOn(cfg, c4, 50);
    ThirdWord(cfg, c5, n);
    LastRound(cfg, events, [NOTHING_COUNTED, c1, c2, c3, c4, c5]);
  }

  lemma LastPause(cfg: Config, c: Counters)
    requires Usual(cfg) && c.total + 800 < 5000 && c.initialSilence != c.inGreeting
    ensures if c.inGreeting then Round(cfg, c, Pause(800)) == Decides(Human(800)) else Round(cfg, c, Pause(800)).GoesOn?
  {
  }

  /** A silence of 49 ms does not end a word: the two stretches of voice are one word of 140 ms, and
      a human has talked. */
  lemma ShortPause(cfg: Config, events: seq<Event>)
    requires Usual(cfg) && events == [Say(70), Pause(49), Say(70), Pause(800)]
    ensures Verdict(cfg, events, 0) == Human(800)
  {
    var c1, c2 := Counters(70, 0, 0, false, 70, 70, true, false), Counters(119, 49, 0, false, 70, 70, true, false);
    var c3 := Counters(189, 0, 0, false, 140, 140, false, true);
    SayGoesOn(cfg, NOTHING_COUNTED, 70);
    PauseGoesOn(cfg, c1, 49);
    SayGoesOn(cfg, c2, 70);
    LastPause(cfg, c3);
    LastRound(cfg, events, [NOTHING_COUNTED, c1, c2, c3]);
  }

  /** A silence of 50 ms does: each stretch is too short for a word, and nobody has talked. */
  lemma LongPause(cfg: Config, events: seq<Event>)
    requires Usual(cfg) && events == [Say(70), Pause(50), Say(70), Pause(800)]
    ensures Verdict(cfg, events, 0) == NoStatus
  {
    var c1, c2 := Counters(70, 0, 0, false, 70, 70, true, false), Counters(120, 50, 0, true, 0, 70, true, false);
    var c3 := Counters(190, 0, 0, true, 70, 140, true, false);
    SayGoesOn(cfg, NOTHING_COUNTED, 70);
    PauseGoesOn(cfg, c1, 50);
    SayGoesOn(cfg, c2, 70);
    LastPause(cfg, c3);
    LastRound(cfg, events, [NOTHING_COUNTED, c1, c2, c3]);
  }

  /** The counters after frames without audio. */
  function Silent(n: nat): Counters {
    Counters(100 * n, 100 * n, 0, n > 0, 0, 0, true, false)
  }

  /** 25 frames without audio, of 100 ms each, are the initial silence. */
  lemma NoAudio(cfg: Config, events: seq<Event>)
    requires Usual(cfg) && events == seq(25, _ => Read(20, NullFrame))
    ensures Verdict(cfg, events, 0) == InitialSilence(2500)
  {
    var cs := seq(25, i requires 0 <= i => Silent(i));
    forall i | 0 <= i < 24 ensures Round(cfg, cs[i], events[i]) == GoesOn(cs[i + 1]) {
      assert cs[i] == Silent(i) && cs[i + 1] == Silent(i + 1);
    }
    LastRound(cfg, events, cs);
  }

  /** 5000 ms are too long for a decision, 4999 ms are not. */
  lemma TooLong(cfg: Config, events: seq<Event>, n: nat)
    requires Usual(cfg) && (n == 4999 || n == 5000)
    requires events == [Read(20, VoiceFrame(n, 1))]
    ensures Verdict(cfg, events, 0)
         == if n == 5000 then NotSure(5000) else NoStatus
  {
    LastRound(cfg, events, [NOTHING_COUNTED]);
  }
}
