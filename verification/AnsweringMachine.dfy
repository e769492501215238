/**
 The answering machine detector.  What it decides is stated over the whole history of heard
 voice and silence, cut into stretches at the long silences; the loop of the source keeps a
 few counters and flags instead.
 */
module AnsweringMachine {
  import opened Basics

  /** The parameters of the detector, times in milliseconds; maxWait is the smallest of its
      default and the other waiting times. */
  datatype Config = Config(
    initialSilence: int, greeting: int, afterGreetingSilence: int, totalAnalysisTime: int,
    minimumWordLength: int, betweenWordsSilence: int, maximumNumberOfWords: int, maximumWordLength: int,
    maxWait: int)

  /** A frame: voice with its length and the silence the detector of silences has seen up to
      its end, a frame without audio, or another one. */
  datatype Frame = VoiceFrame(length: nat, silence: nat) | NullFrame | OtherFrame

  /** What a round of the loop sees: the wait result, and a frame or the end of the call. */
  datatype Event = Read(wait: nat, frame: Frame) | Hangup(wait: nat)

  datatype Result =
    | NoStatus
    | HungUp
    | NotSure(total: int)
    | InitialSilence(silence: int)
    | MaxWordLength(length: int)
    | MaxWords(words: int)
    | LongGreeting(voice: int)
    | Human(silence: int)

  // ---------- what was heard ----------

  datatype Heard = Voice(length: int) | Silence(duration: int)

  /** The silence seen so far, the time and what was heard. */
  datatype History = History(silence: int, total: int, heard: seq<Heard>)

  function Length(cfg: Config, f: Frame): int {
    if f.VoiceFrame? then f.length else 2 * cfg.maxWait
  }

  function SilenceAfter(cfg: Config, silence: int, f: Frame): int {
    if f.VoiceFrame? then f.silence else silence + 2 * cfg.maxWait
  }

  /** A frame that is heard as silence when the silence seen so far is positive. */
  function HeardAs(cfg: Config, silence: int, f: Frame): Heard {
    var d := SilenceAfter(cfg, silence, f);
    if d > 0 then Silence(d) else Voice(Length(cfg, f))
  }

  function Hear(cfg: Config, h: History, f: Frame): History {
    if f.OtherFrame? then h
    else History(SilenceAfter(cfg, h.silence, f), h.total + Length(cfg, f), h.heard + [HeardAs(cfg, h.silence, f)])
  }

  const NOTHING_HEARD := History(0, 0, [])

  function HistoryOf(cfg: Config, events: seq<Event>): History {
    if events == [] then NOTHING_HEARD
    else
      var h := HistoryOf(cfg, events[..|events| - 1]);
      match events[|events| - 1]
      case Read(_, f) => Hear(cfg, h, f)
      case Hangup(_) => h
  }

  // ---------- stretches and words ----------

  /** A silence long enough to end a stretch of voice. */
  predicate Ends(cfg: Config, x: Heard) {
    x.Silence? && x.duration >= cfg.betweenWordsSilence
  }

  /** What was heard, cut at the long silences. */
  function Stretches(cfg: Config, heard: seq<Heard>): (r: seq<seq<Heard>>)
    ensures r != []
  {
    if heard == [] then [[]]
    else
      var n := |heard| - 1;
      var r := Stretches(cfg, heard[..n]);
      if Ends(cfg, heard[n]) then r + [[]] else r[..|r| - 1] + [r[|r| - 1] + [heard[n]]]
  }

  function Last(cfg: Config, heard: seq<Heard>): seq<Heard> {
    var r := Stretches(cfg, heard);
    r[|r| - 1]
  }

  /** The time of voice. */
  function VoiceTime(q: seq<Heard>): int {
    if q == [] then 0
    else VoiceTime(q[..|q| - 1]) + match q[|q| - 1] case Voice(n) => n case Silence(_) => 0
  }

  predicate HasVoice(q: seq<Heard>) {
    exists i :: 0 <= i < |q| && q[i].Voice?
  }

  /** A stretch whose voice reaches the length of a word. */
  predicate IsWord(cfg: Config, q: seq<Heard>) {
    HasVoice(q) && VoiceTime(q) >= cfg.minimumWordLength
  }

  function Count(b: bool): nat {
    if b then 1 else 0
  }

  /** The words among the stretches from the one numbered first on. */
  function WordsFrom(cfg: Config, r: seq<seq<Heard>>, first: nat): nat {
    if |r| <= first then 0 else WordsFrom(cfg, r[..|r| - 1], first) + Count(IsWord(cfg, r[|r| - 1]))
  }

  /** The words: what comes before the first long silence does not count. */
  function Words(cfg: Config, heard: seq<Heard>): nat {
    WordsFrom(cfg, Stretches(cfg, heard), 1)
  }

  /** Some stretch, the first one included, was a word. */
  predicate Talked(cfg: Config, heard: seq<Heard>) {
    WordsFrom(cfg, Stretches(cfg, heard), 0) > 0
  }

  // ---------- the decision ----------

  /** The decision at a silence, after what was heard before. */
  function AtSilence(cfg: Config, heard: seq<Heard>, d: int): Option<Result> {
    if !Talked(cfg, heard) && d >= cfg.initialSilence then Some(InitialSilence(d))
    else if Talked(cfg, heard) && d >= cfg.afterGreetingSilence then Some(Human(d))
    else None
  }

  /** The decision at a frame of voice, with the voice time of its stretch, the words and the
      voice time so far, and whether there was a word before it. */
  function Judged(cfg: Config, stretch: int, words: int, talked: bool, voice: int): Option<Result> {
    if stretch >= cfg.maximumWordLength then Some(MaxWordLength(stretch))
    else if words >= cfg.maximumNumberOfWords then Some(MaxWords(words))
    else if talked && voice >= cfg.greeting then Some(LongGreeting(voice))
    else None
  }

  function AtVoice(cfg: Config, before: seq<Heard>, heard: seq<Heard>): Option<Result> {
    Judged(cfg, VoiceTime(Last(cfg, heard)), Words(cfg, heard), Talked(cfg, before), VoiceTime(heard))
  }

  /** The decision of a long word leaves the loop without a mark: when the wait had returned
      0, the code behind the loop replaces it. */
  function Marked(r: Result, wait: nat, total: int): Result {
    if r.MaxWordLength? && wait == 0 then NotSure(total) else r
  }

  /** The decision when x was heard last, from the history before and after it. */
  function Heeded(cfg: Config, before: seq<Heard>, h: History, x: Heard, wait: nat): Option<Result> {
    if h.total >= cfg.totalAnalysisTime then Some(NotSure(h.total))
    else match x
         case Silence(d) => AtSilence(cfg, before, d)
         case Voice(_) =>
           var r := AtVoice(cfg, before, h.heard);
           if r.Some? then Some(Marked(r.value, wait, h.total)) else None
  }

  /** The decision at an event after a history. */
  function Decision(cfg: Config, h: History, e: Event): Option<Result> {
    match e
    case Hangup(_) => Some(HungUp)
    case Read(wait, f) =>
      if f.OtherFrame? then None else Heeded(cfg, h.heard, Hear(cfg, h, f), HeardAs(cfg, h.silence, f), wait)
  }

  /** The result: the first decision, or no status when waiting fails before. */
  function Verdict(cfg: Config, events: seq<Event>, n: nat): Result
    requires n <= |events|
    decreases |events| - n
  {
    if n == |events| then NoStatus
    else match Decision(cfg, HistoryOf(cfg, events[..n]), events[n])
         case Some(r) => r
         case None => Verdict(cfg, events, n + 1)
  }

  // ---------- how the counters follow the history ----------

  /** The variables of the loop. */
  datatype Counters = Counters(
    total: int, silence: int, words: int, inSilence: bool, consecutive: int, voice: int,
    initialSilence: bool, inGreeting: bool)

  /** The counters that stand for a number of words, whether a long silence was heard, whether
      the last stretch is a word and how long it is, the time of voice, and whether any stretch
      was a word. */
  function Tally(total: int, silence: int, words: int, later: bool, word: bool, stretch: int, voice: int,
                 talked: bool): Counters
  {
    Counters(total, silence, words, later && !word, stretch, voice, !talked, talked)
  }

  /** What the counters have to be after a history. */
  function CountersOf(cfg: Config, h: History): Counters {
    Tally(h.total, h.silence, Words(cfg, h.heard), |Stretches(cfg, h.heard)| > 1, IsWord(cfg, Last(cfg, h.heard)),
          VoiceTime(Last(cfg, h.heard)), VoiceTime(h.heard), Talked(cfg, h.heard))
  }

  lemma WordsPush(cfg: Config, r: seq<seq<Heard>>, q: seq<Heard>, first: nat)
    ensures WordsFrom(cfg, r + [q], first) == WordsFrom(cfg, r, first) + Count(|r| >= first && IsWord(cfg, q))
  {
    assert (r + [q])[..|r|] == r;
  }

  lemma VoicePush(q: seq<Heard>, x: Heard)
    ensures VoiceTime(q + [x]) == VoiceTime(q) + match x case Voice(n) => n case Silence(_) => 0
  {
    assert (q + [x])[..|q|] == q;
  }

  /** A long silence begins an empty stretch, which is no word. */
  lemma StretchEnds(cfg: Config, heard: seq<Heard>, x: Heard)
    requires Ends(cfg, x)
    ensures Stretches(cfg, heard + [x]) == Stretches(cfg, heard) + [[]]
    ensures Words(cfg, heard + [x]) == Words(cfg, heard)
    ensures Talked(cfg, heard + [x]) == Talked(cfg, heard)
    ensures Last(cfg, heard + [x]) == []
  {
    var r := Stretches(cfg, heard);
    assert (heard + [x])[..|heard|] == heard;
    WordsPush(cfg, r, [], 0);
    WordsPush(cfg, r, [], 1);
  }

  /** Replacing the last stretch changes the words by what the two stretches are. */
  lemma WordsReplaced(cfg: Config, r: seq<seq<Heard>>, q: seq<Heard>, first: nat)
    requires |r| > first
    ensures WordsFrom(cfg, r, first) - Count(IsWord(cfg, r[|r| - 1]))
         == WordsFrom(cfg, r[..|r| - 1] + [q], first) - Count(IsWord(cfg, q)) >= 0
  {
    WordsPush(cfg, r[..|r| - 1], q, first);
  }

  /** Anything else goes on with the last stretch. */
  lemma LastGoesOn(cfg: Config, heard: seq<Heard>, x: Heard)
    requires !Ends(cfg, x)
    ensures var r := Stretches(cfg, heard);
            Stretches(cfg, heard + [x]) == r[..|r| - 1] + [Last(cfg, heard) + [x]]
  {
    assert (heard + [x])[..|heard|] == heard;
  }

  lemma StretchGoesOn(cfg: Config, heard: seq<Heard>, x: Heard)
    requires !Ends(cfg, x)
    ensures var r, last, q := Stretches(cfg, heard), Last(cfg, heard), Last(cfg, heard) + [x];
            && Last(cfg, heard + [x]) == q
            && |Stretches(cfg, heard + [x])| == |r|
            && WordsFrom(cfg, r, 0) - Count(IsWord(cfg, last))
               == WordsFrom(cfg, Stretches(cfg, heard + [x]), 0) - Count(IsWord(cfg, q)) >= 0
            && if |r| > 1
               then Words(cfg, heard + [x]) - Count(IsWord(cfg, q)) == Words(cfg, heard) - Count(IsWord(cfg, last))
               else Words(cfg, heard + [x]) == Words(cfg, heard) == 0
  {
    var r, q := Stretches(cfg, heard), Last(cfg, heard) + [x];
    LastGoesOn(cfg, heard, x);
    WordsReplaced(cfg, r, q, 0);
    if |r| > 1 {
      WordsReplaced(cfg, r, q, 1);
    }
  }

  lemma HasVoicePush(q: seq<Heard>, x: Heard)
    ensures HasVoice(q + [x]) == (HasVoice(q) || x.Voice?)
  {
    if HasVoice(q) {
      var i :| 0 <= i < |q| && q[i].Voice?;
      assert (q + [x])[i].Voice?;
    }
    if x.Voice? {
      assert (q + [x])[|q|].Voice?;
    }
  }

  /** The counters after a silence. */
  function AddSilence(cfg: Config, c: Counters, d: int): Counters {
    if d >= cfg.betweenWordsSilence then c.(inSilence := true, consecutive := 0) else c
  }

  lemma FollowsSilence(cfg: Config, h: History, h': History, d: int)
    requires h' == History(d, h'.total, h.heard + [Silence(d)])
    ensures CountersOf(cfg, h') == AddSilence(cfg, CountersOf(cfg, h).(total := h'.total, silence := d), d)
  {
    var x := Silence(d);
    VoicePush(h.heard, x);
    if Ends(cfg, x) {
      StretchEnds(cfg, h.heard, x);
    } else {
      StretchGoesOn(cfg, h.heard, x);
      VoicePush(Last(cfg, h.heard), x);
      HasVoicePush(Last(cfg, h.heard), x);
    }
  }

  /** Voice makes the last stretch a word when it is long enough, and keeps it one. */
  lemma WordAfterVoice(cfg: Config, heard: seq<Heard>, n: nat)
    ensures var q, q' := Last(cfg, heard), Last(cfg, heard + [Voice(n)]);
            && VoiceTime(q') == VoiceTime(q) + n
            && IsWord(cfg, q') == (VoiceTime(q') >= cfg.minimumWordLength)
            && (IsWord(cfg, q) ==> IsWord(cfg, q'))
  {
    StretchGoesOn(cfg, heard, Voice(n));
    VoicePush(Last(cfg, heard), Voice(n));
    HasVoicePush(Last(cfg, heard), Voice(n));
  }

  /** The words after a frame of voice. */
  lemma WordsAfterVoice(cfg: Config, heard: seq<Heard>, n: nat)
    ensures var r, q, q' := Stretches(cfg, heard), Last(cfg, heard), Last(cfg, heard + [Voice(n)]);
            && Words(cfg, heard + [Voice(n)])
               == Words(cfg, heard) + Count(|r| > 1 && !IsWord(cfg, q) && IsWord(cfg, q'))
            && Talked(cfg, heard + [Voice(n)]) == (Talked(cfg, heard) || IsWord(cfg, q'))
            && |Stretches(cfg, heard + [Voice(n)])| == |r|
  {
    StretchGoesOn(cfg, heard, Voice(n));
    WordAfterVoice(cfg, heard, n);
  }

  /** The counters after a frame of voice. */
  function AddVoice(cfg: Config, c: Counters, n: int): Counters {
    var word := c.consecutive + n >= cfg.minimumWordLength;
    c.(words := c.words + Count(word && c.inSilence), inSilence := c.inSilence && !word,
       consecutive := c.consecutive + n, voice := c.voice + n,
       initialSilence := c.initialSilence && !(word && !c.inGreeting), inGreeting := c.inGreeting || word)
  }

  /** What a frame of voice does to a tally. */
  lemma TallyVoice(cfg: Config, total: int, silence: int, words: int, later: bool, word: bool, stretch: int, voice: int,
                   talked: bool, n: nat)
    requires word ==> stretch >= cfg.minimumWordLength
    ensures var word' := stretch + n >= cfg.minimumWordLength;
            AddVoice(cfg, Tally(total, silence, words, later, word, stretch, voice, talked), n)
            == Tally(total, silence, words + Count(later && !word && word'), later, word', stretch + n, voice + n,
                     talked || word')
  {
  }

  /** What a frame of voice changes in what was heard. */
  predicate AddsVoice(cfg: Config, heard: seq<Heard>, heard': seq<Heard>, n: nat) {
    var r, q, q' := Stretches(cfg, heard), Last(cfg, heard), Last(cfg, heard');
    && VoiceTime(heard') == VoiceTime(heard) + n
    && VoiceTime(q') == VoiceTime(q) + n
    && IsWord(cfg, q') == (VoiceTime(q') >= cfg.minimumWordLength)
    && |Stretches(cfg, heard')| == |r|
    && Words(cfg, heard') == Words(cfg, heard) + Count(|r| > 1 && !IsWord(cfg, q) && IsWord(cfg, q'))
    && Talked(cfg, heard') == (Talked(cfg, heard) || IsWord(cfg, q'))
  }

  lemma VoiceAdded(cfg: Config, heard: seq<Heard>, n: nat)
    ensures AddsVoice(cfg, heard, heard + [Voice(n)], n)
  {
    VoicePush(heard, Voice(n));
    WordAfterVoice(cfg, heard, n);
    WordsAfterVoice(cfg, heard, n);
  }

  lemma CountersFollow(cfg: Config, h: History, h': History, n: nat)
    requires AddsVoice(cfg, h.heard, h'.heard, n)
    ensures CountersOf(cfg, h') == AddVoice(cfg, CountersOf(cfg, h).(total := h'.total, silence := h'.silence), n)
  {
    var r, q := Stretches(cfg, h.heard), Last(cfg, h.heard);
    TallyVoice(cfg, h'.total, h'.silence, Words(cfg, h.heard), |r| > 1, IsWord(cfg, q), VoiceTime(q),
               VoiceTime(h.heard), Talked(cfg, h.heard), n);
  }

  lemma FollowsVoice(cfg: Config, h: History, h': History, n: nat)
    requires h'.heard == h.heard + [Voice(n)]
    ensures CountersOf(cfg, h') == AddVoice(cfg, CountersOf(cfg, h).(total := h'.total, silence := h'.silence), n)
  {
    VoiceAdded(cfg, h.heard, n);
    CountersFollow(cfg, h, h', n);
  }

  // ---------- one round of the loop ----------

  /** The counters after a round that decided nothing, or the decision. */
  datatype Outcome = GoesOn(c: Counters) | Decides(r: Result)

  function SilenceRound(cfg: Config, c: Counters, d: int): Outcome {
    if c.initialSilence && d >= cfg.initialSilence then Decides(InitialSilence(d))
    else if d >= cfg.afterGreetingSilence && c.inGreeting then Decides(Human(d))
    else GoesOn(AddSilence(cfg, c, d))
  }

  function VoiceRound(cfg: Config, c: Counters, n: int, wait: nat): Outcome {
    var c' := AddVoice(cfg, c, n);
    if c'.consecutive >= cfg.maximumWordLength then
      Decides(if wait == 0 then NotSure(c.total) else MaxWordLength(c'.consecutive))
    else if c'.words >= cfg.maximumNumberOfWords then Decides(MaxWords(c'.words))
    else if c.inGreeting && c'.voice >= cfg.greeting then Decides(LongGreeting(c'.voice))
    else GoesOn(c')
  }

  function HeardRound(cfg: Config, c: Counters, x: Heard, wait: nat): Outcome {
    if c.total >= cfg.totalAnalysisTime then Decides(NotSure(c.total))
    else match x
         case Silence(d) => SilenceRound(cfg, c, d)
         case Voice(n) => VoiceRound(cfg, c, n, wait)
  }

  function Round(cfg: Config, c: Counters, e: Event): Outcome {
    match e
    case Hangup(_) => Decides(HungUp)
    case Read(wait, f) =>
      if f.OtherFrame? then GoesOn(c)
      else HeardRound(cfg, c.(total := c.total + Length(cfg, f), silence := SilenceAfter(cfg, c.silence, f)),
                      HeardAs(cfg, c.silence, f), wait)
  }

  lemma SilenceRoundFollows(cfg: Config, h: History, h': History, d: int)
    requires h' == History(d, h'.total, h.heard + [Silence(d)])
    ensures SilenceRound(cfg, CountersOf(cfg, h).(total := h'.total, silence := d), d)
         == var r := AtSilence(cfg, h.heard, d); if r.Some? then Decides(r.value) else GoesOn(CountersOf(cfg, h'))
  {
    FollowsSilence(cfg, h, h', d);
  }

  /** The outcome of a decision at voice. */
  function Settled(r: Option<Result>, wait: nat, c: Counters): Outcome {
    if r.None? then GoesOn(c) else Decides(Marked(r.value, wait, c.total))
  }

  lemma VoiceRoundIsJudged(cfg: Config, c: Counters, n: int, wait: nat)
    ensures var c' := AddVoice(cfg, c, n);
            VoiceRound(cfg, c, n, wait)
            == Settled(Judged(cfg, c'.consecutive, c'.words, c.inGreeting, c'.voice), wait, c')
  {
  }

  lemma AtVoiceIsJudged(cfg: Config, h: History, h': History)
    ensures var c, c' := CountersOf(cfg, h), CountersOf(cfg, h');
            AtVoice(cfg, h.heard, h'.heard) == Judged(cfg, c'.consecutive, c'.words, c.inGreeting, c'.voice)
  {
  }

  lemma VoiceRoundFollows(cfg: Config, h: History, h': History, n: nat, wait: nat, c: Counters)
    requires h' == History(h'.silence, h'.total, h.heard + [Voice(n)])
    requires c == CountersOf(cfg, h).(total := h'.total, silence := h'.silence)
    ensures VoiceRound(cfg, c, n, wait) == Settled(AtVoice(cfg, h.heard, h'.heard), wait, CountersOf(cfg, h'))
  {
    FollowsVoice(cfg, h, h', n);
    VoiceRoundIsJudged(cfg, c, n, wait);
    AtVoiceIsJudged(cfg, h, h');
  }

  /** The outcome that a decision and a history stand for. */
  function OutcomeOf(cfg: Config, r: Option<Result>, h: History): Outcome {
    if r.Some? then Decides(r.value) else GoesOn(CountersOf(cfg, h))
  }

  lemma HeardRoundFollows(cfg: Config, h: History, h': History, x: Heard, wait: nat)
    requires h' == History(h'.silence, h'.total, h.heard + [x])
    requires match x case Silence(d) => h'.silence == d case Voice(n) => n >= 0
    ensures HeardRound(cfg, CountersOf(cfg, h).(total := h'.total, silence := h'.silence), x, wait)
         == OutcomeOf(cfg, Heeded(cfg, h.heard, h', x, wait), h')
  {
    match x
    case Silence(d) => SilenceRoundFollows(cfg, h, h', d);
    case Voice(n) =>
      VoiceRoundFollows(cfg, h, h', n, wait, CountersOf(cfg, h).(total := h'.total, silence := h'.silence));
  }

  /** What a round of the loop hears. */
  lemma RoundHears(cfg: Config, h: History, c: Counters, wait: nat, f: Frame)
    requires !f.OtherFrame? && c.total == h.total && c.silence == h.silence
    ensures var h' := Hear(cfg, h, f);
            Round(cfg, c, Read(wait, f))
            == HeardRound(cfg, c.(total := h'.total, silence := h'.silence), HeardAs(cfg, h.silence, f), wait)
  {
  }

  /** A round of the loop decides what the history decides, and its counters go on to say what
      the history says. */
  lemma RoundFollows(cfg: Config, h: History, e: Event)
    requires cfg.maxWait >= 0
    ensures Round(cfg, CountersOf(cfg, h), e)
         == OutcomeOf(cfg, Decision(cfg, h, e), if e.Read? then Hear(cfg, h, e.frame) else h)
  {
    match e
    case Hangup(_) =>
    case Read(wait, f) =>
      if !f.OtherFrame? {
        RoundHears(cfg, h, CountersOf(cfg, h), wait, f);
        HeardRoundFollows(cfg, h, Hear(cfg, h, f), HeardAs(cfg, h.silence, f), wait);
      }
  }

  lemma HistoryPush(cfg: Config, events: seq<Event>, n: nat)
    requires n < |events|
    ensures HistoryOf(cfg, events[..n + 1])
         == var h := HistoryOf(cfg, events[..n]); if events[n].Read? then Hear(cfg, h, events[n].frame) else h
  {
    assert events[..n + 1][..n] == events[..n];
  }

  lemma RoundAt(cfg: Config, events: seq<Event>, n: nat, c: Counters)
    requires cfg.maxWait >= 0 && n < |events| && c == CountersOf(cfg, HistoryOf(cfg, events[..n]))
    ensures var o := Round(cfg, c, events[n]);
            && (o.Decides? ==> Verdict(cfg, events, n) == o.r)
            && (o.GoesOn? ==> Verdict(cfg, events, n) == Verdict(cfg, events, n + 1)
                              && o.c == CountersOf(cfg, HistoryOf(cfg, events[..n + 1])))
  {
    RoundFollows(cfg, HistoryOf(cfg, events[..n]), events[n]);
    HistoryPush(cfg, events, n);
  }

  /** The counters the loop begins with. */
  const NOTHING_COUNTED := Counters(0, 0, 0, false, 0, 0, true, false)

  lemma NothingCounted(cfg: Config)
    ensures CountersOf(cfg, HistoryOf(cfg, [])) == NOTHING_COUNTED
  {
    assert Stretches(cfg, []) == [[]];
    WordsPush(cfg, [], [], 0);
  }

  // ---------- the loop ----------

  /** The part of the loop body for silence. */
  method HearSilence(cfg: Config, before: Counters, silenceDuration: int) returns (o: Outcome)
    ensures o == SilenceRound(cfg, before, silenceDuration)
  {
    var c := before;
    if silenceDuration >= cfg.betweenWordsSilence {
      c := c.(inSilence := true, consecutive := 0);
    }
    if c.initialSilence && silenceDuration >= cfg.initialSilence {
      return Decides(InitialSilence(silenceDuration));
    }
    if silenceDuration >= cfg.afterGreetingSilence && c.inGreeting {
      return Decides(Human(silenceDuration));
    }
    return GoesOn(c);
  }

  /** The part of the loop body for voice. */
  method HearVoice(cfg: Config, before: Counters, framelength: int, wait: nat) returns (o: Outcome)
    ensures o == VoiceRound(cfg, before, framelength, wait)
  {
    var c := before.(consecutive := before.consecutive + framelength, voice := before.voice + framelength);
    if c.consecutive >= cfg.minimumWordLength && c.inSilence {
      c := c.(words := c.words + 1, inSilence := false);
    }
    if c.consecutive >= cfg.maximumWordLength {
      return Decides(if wait == 0 then NotSure(c.total) else MaxWordLength(c.consecutive));
    }
    if c.words >= cfg.maximumNumberOfWords {
      return Decides(MaxWords(c.words));
    }
    if c.inGreeting && c.voice >= cfg.greeting {
      return Decides(LongGreeting(c.voice));
    }
    if c.consecutive >= cfg.minimumWordLength && !c.inGreeting {
      c := c.(initialSilence := false, inGreeting := true);
    }
    return GoesOn(c);
  }

  /** One round: a frame is read and heard. */
  method ReadFrame(cfg: Config, before: Counters, e: Event) returns (o: Outcome)
    ensures o == Round(cfg, before, e)
  {
    match e
    case Hangup(_) =>
      o := Decides(HungUp);
    case Read(wait, f) =>
      if f.OtherFrame? {
        return GoesOn(before);
      }
      var c := before;
      var framelength := if f.VoiceFrame? then f.length else 2 * cfg.maxWait;
      c := c.(total := c.total + framelength);
      if c.total >= cfg.totalAnalysisTime {
        return Decides(NotSure(c.total));
      }
      c := c.(silence := if f.VoiceFrame? then f.silence else c.silence + 2 * cfg.maxWait);
      if c.silence > 0 {
        o := HearSilence(cfg, c, c.silence);
      } else {
        o := HearVoice(cfg, c, framelength, wait);
      }
  }

  /** The loop, for waiting times that are times. */
  method IsAnsweringMachine(cfg: Config, events: seq<Event>) returns (r: Result)
    ensures cfg.maxWait >= 0 ==> r == Verdict(cfg, events, 0)
  {
    var c := NOTHING_COUNTED;
    NothingCounted(cfg);
    for n := 0 to |events|
      invariant cfg.maxWait >= 0 ==> Verdict(cfg, events, 0) == Verdict(cfg, events, n)
      invariant cfg.maxWait >= 0 ==> c == CountersOf(cfg, HistoryOf(cfg, events[..n]))
    {
      if cfg.maxWait >= 0 {
        RoundAt(cfg, events, n, c);
      }
      var o := ReadFrame(cfg, c, events[n]);
      if o.Decides? {
        return o.r;
      }
      c := o.c;
    }
    return NoStatus;
  }

  // ---------- what the decisions mean ----------

  /** No decision was made in the first n events. */
  predicate Undecided(cfg: Config, events: seq<Event>, n: nat)
    requires n <= |events|
  {
    forall i :: 0 <= i < n ==> Decision(cfg, HistoryOf(cfg, events[..i]), events[i]) == None
  }

  predicate NonNegative(heard: seq<Heard>) {
    forall i :: 0 <= i < |heard| && heard[i].Voice? ==> heard[i].length >= 0
  }

  lemma Monotone(a: nat, b: nat, k: int)
    requires k >= 0 && a <= b
    ensures a * k <= b * k
  {
  }

  lemma NotPositive(a: nat, k: int)
    requires k < 0
    ensures a * k <= 0
  {
  }

  lemma OneMoreWord(w: nat, word: bool, k: nat, v: nat, t: int)
    requires w * k + v <= t && (word ==> v >= k)
    ensures (w + Count(word)) * k <= t
  {
    assert (w + 1) * k == w * k + k;
  }

  /** The words of the stretches before the last. */
  function WordsBefore(cfg: Config, heard: seq<Heard>): int {
    WordsFrom(cfg, Stretches(cfg, heard), 0) - Count(IsWord(cfg, Last(cfg, heard)))
  }

  lemma WordsBeforeNonNegative(cfg: Config, heard: seq<Heard>)
    ensures WordsBefore(cfg, heard) >= 0
  {
    WordsReplaced(cfg, Stretches(cfg, heard), [], 0);
  }

  lemma WordsBeforeEnd(cfg: Config, heard: seq<Heard>, x: Heard)
    requires Ends(cfg, x)
    ensures WordsBefore(cfg, heard + [x]) == WordsFrom(cfg, Stretches(cfg, heard), 0)
    ensures VoiceTime(Last(cfg, heard + [x])) == 0
  {
    StretchEnds(cfg, heard, x);
    WordsPush(cfg, Stretches(cfg, heard), [], 0);
  }

  lemma WordsBeforeGoesOn(cfg: Config, heard: seq<Heard>, x: Heard)
    requires !Ends(cfg, x)
    ensures WordsBefore(cfg, heard + [x]) == WordsBefore(cfg, heard)
    ensures VoiceTime(Last(cfg, heard + [x])) == VoiceTime(Last(cfg, heard)) + if x.Voice? then x.length else 0
  {
    StretchGoesOn(cfg, heard, x);
    VoicePush(Last(cfg, heard), x);
  }

  /** The stretches before the last hold their words, the last one its own voice. */
  predicate TakesTime(k: int, w: int, v: int, t: int) {
    w >= 0 && v >= 0 && w * k + v <= t
  }

  lemma TimeStep(cfg: Config, front: seq<Heard>, x: Heard, w: int, v: int)
    requires cfg.minimumWordLength >= 0 && (x.Voice? ==> x.length >= 0)
    requires w == WordsBefore(cfg, front) && v == VoiceTime(Last(cfg, front))
    requires TakesTime(cfg.minimumWordLength, w, v, VoiceTime(front))
    ensures TakesTime(cfg.minimumWordLength, WordsBefore(cfg, front + [x]), VoiceTime(Last(cfg, front + [x])),
                      VoiceTime(front + [x]))
  {
    VoicePush(front, x);
    WordsBeforeNonNegative(cfg, front + [x]);
    if Ends(cfg, x) {
      WordsBeforeEnd(cfg, front, x);
      OneMoreWord(w, IsWord(cfg, Last(cfg, front)), cfg.minimumWordLength, v, VoiceTime(front));
    } else {
      WordsBeforeGoesOn(cfg, front, x);
    }
  }

  lemma {:induction false} WordsTakeTime(cfg: Config, heard: seq<Heard>)
    requires NonNegative(heard) && cfg.minimumWordLength >= 0
    ensures TakesTime(cfg.minimumWordLength, WordsBefore(cfg, heard), VoiceTime(Last(cfg, heard)), VoiceTime(heard))
  {
    if heard == [] {
      WordsPush(cfg, [], [], 0);
      assert [] + [[]] == Stretches(cfg, heard);
    } else {
      var front, x := heard[..|heard| - 1], heard[|heard| - 1];
      WordsTakeTime(cfg, front);
      TimeStep(cfg, front, x, WordsBefore(cfg, front), VoiceTime(Last(cfg, front)));
      assert heard == front + [x];
    }
  }

  lemma {:induction false} FewerFromLater(cfg: Config, r: seq<seq<Heard>>)
    ensures WordsFrom(cfg, r, 1) <= WordsFrom(cfg, r, 0)
  {
    if |r| > 1 {
      FewerFromLater(cfg, r[..|r| - 1]);
    }
  }

  lemma WordsFitVoice(cfg: Config, heard: seq<Heard>, words: nat)
    requires NonNegative(heard) && words == Words(cfg, heard)
    ensures words * cfg.minimumWordLength <= VoiceTime(heard)
  {
    if cfg.minimumWordLength >= 0 {
      var w, v := WordsBefore(cfg, heard), VoiceTime(Last(cfg, heard));
      var word := IsWord(cfg, Last(cfg, heard));
      WordsTakeTime(cfg, heard);
      OneMoreWord(w, word, cfg.minimumWordLength, v, VoiceTime(heard));
      FewerFromLater(cfg, Stretches(cfg, heard));
      Monotone(words, w + Count(word), cfg.minimumWordLength);
    } else {
      VoiceIsTime(heard);
      NotPositive(words, cfg.minimumWordLength);
    }
  }

  lemma {:induction false} VoiceIsTime(heard: seq<Heard>)
    requires NonNegative(heard)
    ensures VoiceTime(heard) >= 0
  {
    if heard != [] {
      VoiceIsTime(heard[..|heard| - 1]);
    }
  }

  predicate Timed(h: History) {
    NonNegative(h.heard) && VoiceTime(h.heard) <= h.total
  }

  lemma HearKeepsTime(cfg: Config, h: History, f: Frame)
    requires cfg.maxWait >= 0 && Timed(h)
    ensures Timed(Hear(cfg, h, f))
  {
    if !f.OtherFrame? {
      VoicePush(h.heard, HeardAs(cfg, h.silence, f));
    }
  }

  lemma {:induction false} VoiceWithinTotal(cfg: Config, events: seq<Event>)
    requires cfg.maxWait >= 0
    ensures Timed(HistoryOf(cfg, events))
  {
    if events != [] {
      var n := |events| - 1;
      VoiceWithinTotal(cfg, events[..n]);
      if events[n].Read? {
        HearKeepsTime(cfg, HistoryOf(cfg, events[..n]), events[n].frame);
      }
    }
  }

  lemma {:induction false} TotalStaysBelow(cfg: Config, events: seq<Event>, n: nat)
    requires n <= |events| && Undecided(cfg, events, n)
    ensures var h := HistoryOf(cfg, events[..n]); h.heard != [] ==> h.total < cfg.totalAnalysisTime
  {
    if n > 0 {
      TotalStaysBelow(cfg, events, n - 1);
      HistoryPush(cfg, events, n - 1);
      assert Decision(cfg, HistoryOf(cfg, events[..n - 1]), events[n - 1]) == None;
    }
  }

  /** While nothing is decided the words fit the voice that was heard, the voice fits the time,
      and the time is below the time for the analysis. */
  lemma CountersAreBounded(cfg: Config, events: seq<Event>, n: nat)
    requires cfg.maxWait >= 0 && n <= |events| && Undecided(cfg, events, n)
    ensures var h := HistoryOf(cfg, events[..n]);
            && Words(cfg, h.heard) * cfg.minimumWordLength <= VoiceTime(h.heard) <= h.total
            && (h.heard != [] ==> h.total < cfg.totalAnalysisTime)
  {
    VoiceWithinTotal(cfg, events[..n]);
    var h := HistoryOf(cfg, events[..n]);
    WordsFitVoice(cfg, h.heard, Words(cfg, h.heard));
    TotalStaysBelow(cfg, events, n);
  }

  predicate SomeWord(cfg: Config, r: seq<seq<Heard>>) {
    exists i :: 0 <= i < |r| && IsWord(cfg, r[i])
  }

  lemma {:induction false} WordsExist(cfg: Config, r: seq<seq<Heard>>)
    ensures WordsFrom(cfg, r, 0) > 0 <==> SomeWord(cfg, r)
  {
    if r != [] {
      var front := r[..|r| - 1];
      WordsExist(cfg, front);
      if WordsFrom(cfg, front, 0) > 0 {
        var i :| 0 <= i < |front| && IsWord(cfg, front[i]);
        assert IsWord(cfg, r[i]);
      }
      if i :| 0 <= i < |r| && IsWord(cfg, r[i]) {
        assert i < |front| ==> IsWord(cfg, front[i]);
      }
    }
  }

  /** The verdict is the decision at the first event that decides. */
  lemma {:induction false} VerdictIsFirst(cfg: Config, events: seq<Event>, n: nat) returns (at: nat)
    requires n <= |events| && Undecided(cfg, events, n) && Verdict(cfg, events, n) != NoStatus
    ensures n <= at < |events| && Undecided(cfg, events, at)
    ensures Decision(cfg, HistoryOf(cfg, events[..at]), events[at]) == Some(Verdict(cfg, events, n))
    decreases |events| - n
  {
    if Decision(cfg, HistoryOf(cfg, events[..n]), events[n]).Some? {
      at := n;
    } else {
      at := VerdictIsFirst(cfg, events, n + 1);
    }
  }

  /** A decision of HUMAN is one at a silence. */
  lemma HumanDecided(cfg: Config, before: seq<Heard>, h: History, x: Heard, wait: nat, d: int)
    requires Heeded(cfg, before, h, x, wait) == Some(Human(d))
    ensures d >= cfg.afterGreetingSilence && Talked(cfg, before)
  {
    match x
    case Silence(_) =>
    case Voice(_) =>
  }

  /** So is one of INITIALSILENCE. */
  lemma SilenceDecided(cfg: Config, before: seq<Heard>, h: History, x: Heard, wait: nat, d: int)
    requires Heeded(cfg, before, h, x, wait) == Some(InitialSilence(d))
    ensures d >= cfg.initialSilence && !Talked(cfg, before)
  {
    match x
    case Silence(_) =>
    case Voice(_) =>
  }

  /** A decision other than that the call has ended is one at what was heard. */
  lemma HeardDecides(cfg: Config, h: History, e: Event)
    requires Decision(cfg, h, e).Some? && !Decision(cfg, h, e).value.HungUp?
    ensures e.Read? && !e.frame.OtherFrame?
    ensures Decision(cfg, h, e) == Heeded(cfg, h.heard, Hear(cfg, h, e.frame), HeardAs(cfg, h.silence, e.frame), e.wait)
  {
  }

  /** HUMAN is the verdict only after a stretch of voice that was a word, at a silence that is
      long enough; INITIALSILENCE only while there was none. */
  lemma HumanHasTalked(cfg: Config, events: seq<Event>, d: int) returns (at: nat)
    requires Verdict(cfg, events, 0) == Human(d) || Verdict(cfg, events, 0) == InitialSilence(d)
    ensures at < |events| && Undecided(cfg, events, at)
    ensures var r := Stretches(cfg, HistoryOf(cfg, events[..at]).heard);
            if Verdict(cfg, events, 0) == Human(d)
            then d >= cfg.afterGreetingSilence && SomeWord(cfg, r)
            else d >= cfg.initialSilence && !SomeWord(cfg, r)
  {
    at := VerdictIsFirst(cfg, events, 0);
    var h, e := HistoryOf(cfg, events[..at]), events[at];
    HeardDecides(cfg, h, e);
    var h', x := Hear(cfg, h, e.frame), HeardAs(cfg, h.silence, e.frame);
    if Verdict(cfg, events, 0) == Human(d) {
      HumanDecided(cfg, h.heard, h', x, e.wait, d);
    } else {
      SilenceDecided(cfg, h.heard, h', x, e.wait, d);
    }
    WordsExist(cfg, Stretches(cfg, h.heard));
  }

  /** What decides first is the verdict. */
  lemma {:induction false} FirstIsVerdict(cfg: Config, events: seq<Event>, n: nat, at: nat)
    requires n <= at < |events| && Undecided(cfg, events, at)
    requires Decision(cfg, HistoryOf(cfg, events[..at]), events[at]).Some?
    ensures Some(Verdict(cfg, events, n)) == Decision(cfg, HistoryOf(cfg, events[..at]), events[at])
    decreases at - n
  {
    if n < at {
      assert Decision(cfg, HistoryOf(cfg, events[..n]), events[n]) == None;
      FirstIsVerdict(cfg, events, n + 1, at);
    }
  }

  /** The first event that decides is a frame of voice, heard in time, with which the stretch is
      too long for a word. */
  predicate LongWordAt(cfg: Config, events: seq<Event>, at: nat)
    requires at < |events|
  {
    var h, e := HistoryOf(cfg, events[..at]), events[at];
    && Undecided(cfg, events, at)
    && e.Read? && !e.frame.OtherFrame? && HeardAs(cfg, h.silence, e.frame).Voice?
    && Hear(cfg, h, e.frame).total < cfg.totalAnalysisTime
    && VoiceTime(Last(cfg, Hear(cfg, h, e.frame).heard)) >= cfg.maximumWordLength
  }

  /** What the long word should be reported as. */
  function LongWord(cfg: Config, events: seq<Event>, at: nat): Result
    requires at < |events|
  {
    MaxWordLength(VoiceTime(Last(cfg, HistoryOf(cfg, events[..at + 1]).heard)))
  }

  /** The decision at a long word. */
  lemma LongWordDecides(cfg: Config, events: seq<Event>, at: nat)
    requires at < |events| && LongWordAt(cfg, events, at)
    ensures Decision(cfg, HistoryOf(cfg, events[..at]), events[at])
         == Some(Marked(LongWord(cfg, events, at), events[at].wait, HistoryOf(cfg, events[..at + 1]).total))
  {
    HistoryPush(cfg, events, at);
  }

  /** The verdict is that of a long word, or NOTSURE before the time is up. */
  predicate OfLongWord(cfg: Config, v: Result) {
    v.MaxWordLength? || (v.NotSure? && v.total < cfg.totalAnalysisTime)
  }

  /** What is heeded as a long word is one. */
  lemma LongWordHeeded(cfg: Config, before: seq<Heard>, h: History, x: Heard, wait: nat, r: Result)
    requires Heeded(cfg, before, h, x, wait) == Some(r)
    requires OfLongWord(cfg, r)
    ensures x.Voice? && h.total < cfg.totalAnalysisTime && VoiceTime(Last(cfg, h.heard)) >= cfg.maximumWordLength
  {
    match x
    case Silence(_) =>
    case Voice(_) =>
  }

  /** Only a long word is decided as one, or as NOTSURE before the time is up. */
  lemma OnlyLongWords(cfg: Config, events: seq<Event>, at: nat, r: Result)
    requires at < |events| && Undecided(cfg, events, at)
    requires Decision(cfg, HistoryOf(cfg, events[..at]), events[at]) == Some(r)
    requires OfLongWord(cfg, r)
    ensures LongWordAt(cfg, events, at)
  {
    var h, e := HistoryOf(cfg, events[..at]), events[at];
    HeardDecides(cfg, h, e);
    LongWordHeeded(cfg, h.heard, Hear(cfg, h, e.frame), HeardAs(cfg, h.silence, e.frame), e.wait, r);
  }

  /** The verdict at a long word. Behind the loop a wait of 0 is taken for one that timed out:
      the verdict is then NOTSURE before the time for the analysis is up. */
  lemma LongWordReported(cfg: Config, events: seq<Event>, at: nat)
    requires at < |events| && LongWordAt(cfg, events, at)
    ensures var v, t := Verdict(cfg, events, 0), HistoryOf(cfg, events[..at + 1]).total;
            v == (if events[at].wait > 0 then LongWord(cfg, events, at) else NotSure(t)) && t < cfg.totalAnalysisTime
  {
    LongWordDecides(cfg, events, at);
    FirstIsVerdict(cfg, events, 0, at);
    HistoryPush(cfg, events, at);
  }

  lemma ReportedIsLongWord(cfg: Config, events: seq<Event>) returns (at: nat)
    requires OfLongWord(cfg, Verdict(cfg, events, 0))
    ensures at < |events| && LongWordAt(cfg, events, at)
    ensures Verdict(cfg, events, 0).MaxWordLength? <==> events[at].wait > 0
  {
    at := VerdictIsFirst(cfg, events, 0);
    OnlyLongWords(cfg, events, at, Verdict(cfg, events, 0));
    LongWordReported(cfg, events, at);
  }

  /** A long word is reported as one if and only if the event that decides is one and its wait
      did not return 0, and NOTSURE is the verdict before the time is up if and only if it is
      one and its wait did. */
  lemma LongWordNeedsWait(cfg: Config, events: seq<Event>)
    ensures var v := Verdict(cfg, events, 0);
            && (v.MaxWordLength? <==>
                exists at :: 0 <= at < |events| && LongWordAt(cfg, events, at) && events[at].wait > 0)
            && (v.NotSure? && v.total < cfg.totalAnalysisTime <==>
                exists at :: 0 <= at < |events| && LongWordAt(cfg, events, at) && events[at].wait == 0)
  {
    var v := Verdict(cfg, events, 0);
    forall at | 0 <= at < |events| && LongWordAt(cfg, events, at)
      ensures if events[at].wait > 0 then v.MaxWordLength? else v.NotSure? && v.total < cfg.totalAnalysisTime
    {
      LongWordReported(cfg, events, at);
    }
    if OfLongWord(cfg, v) {
      var at := ReportedIsLongWord(cfg, events);
    }
  }

  lemma OneFrameHeard(cfg: Config, n: nat)
    ensures var h := Hear(cfg, NOTHING_HEARD, VoiceFrame(n, 0));
            h == History(0, n, [Voice(n)]) && VoiceTime(Last(cfg, h.heard)) == n
  {
    assert [] + [Voice(n)] == [Voice(n)];
    assert [Voice(n)][..0] == [];
    assert Stretches(cfg, []) == [[]];
    LastGoesOn(cfg, [], Voice(n));
    VoicePush([], Voice(n));
  }

  /** A single frame of voice that is too long for a word is reported as such when its wait was
      positive, and as NOTSURE when the wait returned 0. */
  lemma LongFrame(cfg: Config, events: seq<Event>, n: nat, wait: nat)
    requires events == [Read(wait, VoiceFrame(n, 0))] && cfg.maximumWordLength <= n < cfg.totalAnalysisTime
    ensures Verdict(cfg, events, 0) == if wait > 0 then MaxWordLength(n) else NotSure(n)
  {
    OneFrameHeard(cfg, n);
    assert events[..0] == [];
    HistoryPush(cfg, events, 0);
    assert LongWordAt(cfg, events, 0);
    LongWordReported(cfg, events, 0);
  }

  /** With a longest word of 1000 ms and 5000 ms for the analysis, 4999 ms of voice are said to
      be too long for the analysis. */
  lemma LongWordIsLost(cfg: Config, events: seq<Event>)
    requires cfg.maximumWordLength == 1000 && cfg.totalAnalysisTime == 5000
    requires events == [Read(0, VoiceFrame(4999, 0))]
    ensures Verdict(cfg, events, 0) == NotSure(4999)
  {
    LongFrame(cfg, events, 4999, 0);
  }
}
