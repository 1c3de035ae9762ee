/**
 * The emotion check-in conversation of bot.py: the `EmotionStates` group (bot.py:35-42),
 * the handlers that move a user between its states (bot.py:163-527), and the stateless
 * handlers that reach into it from anywhere (`check`, `show_emotions`, `back_to_input`,
 * `other_emotion`, `menu`).
 *
 * One inbound event is one `Action`; `Step` is the dispatcher's answer to it: the handler
 * that the first-match routing picks (in the order the handlers are registered), the new
 * FSM state, the new draft (the FSM data dict), the entry committed to the diary if any,
 * and what the user is shown. The `Session` class holds one user's FSM context and journal
 * and changes them in place.
 */
module Conversation {
  import opened Wrappers
  import opened Text

  /** The catalog of emotions.py: the categories, each category's curated emotions, and the body sensations. */
  datatype Catalog = Catalog(categories: seq<string>, emotions: map<string, seq<string>>, bodySensations: seq<string>)

  /** The FSM state of one user: no state, one of the `EmotionStates`, or an onboarding/settings state. */
  datatype FlowState =
    | Idle
    | EmotionInput
    | Category
    | Emotion
    | Intensity
    | BodySensation
    | Reason
    | Note
    | IntroRead            // OnboardingStates.waiting_for_intro_read
    | OnboardingTimezone   // OnboardingStates.waiting_for_timezone
    | SettingsTimezone     // SettingsStates.waiting_for_start_hour, used for the timezone picker

  /**
   * One key of the FSM data dict: missing, present with value `None`, or present with a value.
   * `data.get(key)` does not tell the first two apart; `data.get(key, default)` does.
   */
  datatype Field<T> = Absent | Null | Value(v: T)

  /** The FSM data dict of the check-in flow. */
  datatype Draft = Draft(category: Field<string>, emotion: Field<string>, intensity: Field<int>,
                         bodySensation: Field<string>, reason: Field<string>, note: Field<string>)

  /** The data dict after `state.clear()`. */
  const Cleared := Draft(Absent, Absent, Absent, Absent, Absent, Absent)

  /** A diary entry as `save_entry` stores it; `None` is SQL NULL. */
  datatype Entry = Entry(emotion: string, category: Option<string>, intensity: Option<int>,
                         bodySensation: Option<string>, reason: Option<string>, note: Option<string>)

  /** `/start` (whether the user record says onboarding is complete), `/check`, `/diary`, `/stats`, `/settings`, `/help`. */
  datatype Cmd = Start(onboarded: bool) | CheckCmd | DiaryCmd | StatsCmd | SettingsCmd | HelpCmd

  /** The callback data of the inline buttons; `Other` is data that no handler's filter accepts. */
  datatype Token =
    | OnboardingContinue
    | Tz(offset: int)
    | Check
    | ShowEmotions
    | BackToInput
    | Cat(index: nat)
    | OtherEmotion
    | Em(index: nat)
    | IntensityPick(value: int)
    | SkipIntensity
    | Body(index: nat)
    | BodyCustom
    | SkipBody
    | SkipReason
    | AddNote
    | FinishEntry
    | Delay15
    | SkipToday
    | Diary
    | DiaryPage(page: nat)
    | Stats
    | Settings
    | ChangeTz
    | ChangeFrequency
    | Freq(count: int)
    | Menu
    | Other(data: string)

  /** An inbound event: a text message, a command message (with its raw text), or a button press. */
  datatype Action = Typed(text: string) | Command(cmd: Cmd, text: string) | Press(token: Token)

  /** What the handler shows; the Russian texts and the keyboards are not modelled. */
  datatype Screen =
    | WelcomeBack | Intro | TimezonePicker | EmotionPrompt | CategoryPicker | EmotionPicker(category: string)
    | OwnEmotionPrompt | BodyPrompt | OwnBodyPrompt | ReasonPrompt | NoteOffer | NotePrompt
    | Summary(entry: Entry) | DiaryView(page: nat) | StatsView | SettingsView | HelpView | FrequencyPicker
    | MainMenu

  /** The writes a handler asks of the rest of the bot (the tables and the slot generator). */
  datatype Request =
    | Onboard(timezone: int, startHour: int, endHour: int, count: int)
    | ChangeTimezone(timezone: int)
    | SetFrequency(count: int)
    | DelayCheck(minutes: int)
    | SkipTodayChecks

  /**
   * The visible result of an event: a screen, a write request, an alert popup, an exception
   * raised inside the handler (aiogram logs it; nothing is shown), or no handler at all.
   */
  datatype Effect = Show(screen: Screen) | Store(request: Request) | Alert | Raised | Unhandled

  datatype Outcome = Outcome(state: FlowState, draft: Draft, saved: Option<Entry>, effect: Effect)

  /** The window and count `save_timezone_onboarding` schedules a new user with (bot.py:214). */
  const DefaultStartHour := 9
  const DefaultEndHour := 22
  const DefaultChecksPerDay := 4

  /** The states that have a plain-message handler (bot.py:259, 410, 432, 476). */
  predicate TakesText(s: FlowState)
  {
    s == EmotionInput || s == BodySensation || s == Reason || s == Note
  }

  /** `data.get(key)`, with SQL NULL for a missing key and for `None`. */
  function Stored<T>(f: Field<T>): (r: Option<T>)
    ensures r.Some? <==> f.Value?
    ensures r.Some? ==> r.value == f.v
  {
    if f.Value? then Some(f.v) else None
  }

  /** The entry `save_entry_and_finish` stores: `data.get('emotion', '')` and `data.get(...)` for the rest. */
  function EntryOf(d: Draft): (e: Entry)
    requires !d.emotion.Null?
    ensures e.emotion == (if d.emotion.Value? then d.emotion.v else "")
    ensures e.category == Stored(d.category) && e.intensity == Stored(d.intensity)
    ensures e.bodySensation == Stored(d.bodySensation) && e.reason == Stored(d.reason) && e.note == Stored(d.note)
  {
    Entry(if d.emotion.Value? then d.emotion.v else "", Stored(d.category), Stored(d.intensity),
          Stored(d.bodySensation), Stored(d.reason), Stored(d.note))
  }

  // ---------------------------------------------------------------------------------------
  // The commit summary (bot.py:505-520)
  // ---------------------------------------------------------------------------------------

  /** One element of `summary_parts`. */
  datatype SummaryPart = EmotionPart(e: string) | IntensityPart(i: int) | BodyPart(b: string)
                       | ReasonPart(r: string) | NotePart(n: string)

  /** The position of a part's kind in the fixed order emotion, intensity, body, reason, note. */
  function Rank(p: SummaryPart): nat
  {
    match p
    case EmotionPart(_) => 0
    case IntensityPart(_) => 1
    case BodyPart(_) => 2
    case ReasonPart(_) => 3
    case NotePart(_) => 4
  }

  /** A Python truthiness test on an optional string: present and non-empty. */
  predicate Filled(o: Option<string>)
  {
    o.Some? && o.value != ""
  }

  /** `summary_parts` (bot.py:505-514). */
  function SummaryParts(e: Entry): (parts: seq<SummaryPart>)
    ensures 1 <= |parts| <= 5 && parts[0] == EmotionPart(e.emotion)
  {
    [EmotionPart(e.emotion)]
    + (if e.intensity.Some? then [IntensityPart(e.intensity.value)] else [])
    + LineParts(e)
  }

  /** The body, reason and note parts, each only when it is non-empty. */
  function LineParts(e: Entry): seq<SummaryPart>
  {
    (if Filled(e.bodySensation) then [BodyPart(e.bodySensation.value)] else [])
    + (if Filled(e.reason) then [ReasonPart(e.reason.value)] else [])
    + (if Filled(e.note) then [NotePart(e.note.value)] else [])
  }

  /**
   * Which parts the summary has: the emotion, the intensity exactly when one is stored (0
   * included), and the body sensation, reason and note exactly when they are non-empty.
   */
  predicate Shown(e: Entry, p: SummaryPart)
  {
    match p
    case EmotionPart(x) => x == e.emotion
    case IntensityPart(i) => e.intensity == Some(i)
    case BodyPart(x) => Filled(e.bodySensation) && x == e.bodySensation.value
    case ReasonPart(x) => Filled(e.reason) && x == e.reason.value
    case NotePart(x) => Filled(e.note) && x == e.note.value
  }

  lemma SummaryPartsShown(e: Entry, p: SummaryPart)
    ensures p in SummaryParts(e) <==> Shown(e, p)
  {
    var i := if e.intensity.Some? then [IntensityPart(e.intensity.value)] else [];
    var b := if Filled(e.bodySensation) then [BodyPart(e.bodySensation.value)] else [];
    var r := if Filled(e.reason) then [ReasonPart(e.reason.value)] else [];
    var n := if Filled(e.note) then [NotePart(e.note.value)] else [];
    assert LineParts(e) == b + r + n;
    assert SummaryParts(e) == [EmotionPart(e.emotion)] + i + LineParts(e);
  }

  /** The parts come in the fixed order emotion, intensity, body, reason, note. */
  lemma SummaryPartsInOrder(e: Entry)
    ensures var parts := SummaryParts(e); forall j :: 0 < j < |parts| ==> Rank(parts[j - 1]) < Rank(parts[j])
  {
    var i := if e.intensity.Some? then [IntensityPart(e.intensity.value)] else [];
    var b := if Filled(e.bodySensation) then [BodyPart(e.bodySensation.value)] else [];
    var r := if Filled(e.reason) then [ReasonPart(e.reason.value)] else [];
    var n := if Filled(e.note) then [NotePart(e.note.value)] else [];
    var parts := SummaryParts(e);
    assert LineParts(e) == b + r + n;
    SeqAssoc(b, r, n);
    SeqAssoc([EmotionPart(e.emotion)] + i, b, r + n);
    SeqAssoc([EmotionPart(e.emotion)] + i + b, r, n);
    assert parts == [EmotionPart(e.emotion)] + i + b + r + n;
    forall j | 0 < j < |parts|
      ensures Rank(parts[j - 1]) < Rank(parts[j])
    {
      RankStep([EmotionPart(e.emotion)], i, b, r, n, j);
    }
  }

  /** Adjacent parts of five segments, each at most one part of one kind, go up in rank. */
  lemma RankStep(p0: seq<SummaryPart>, p1: seq<SummaryPart>, p2: seq<SummaryPart>, p3: seq<SummaryPart>,
                 p4: seq<SummaryPart>, j: int)
    requires |p0| == 1 && p0[0].EmotionPart?
    requires |p1| <= 1 && (forall x :: x in p1 ==> x.IntensityPart?)
    requires |p2| <= 1 && (forall x :: x in p2 ==> x.BodyPart?)
    requires |p3| <= 1 && (forall x :: x in p3 ==> x.ReasonPart?)
    requires |p4| <= 1 && (forall x :: x in p4 ==> x.NotePart?)
    requires 0 < j < |p0 + p1 + p2 + p3 + p4|
    ensures var parts := p0 + p1 + p2 + p3 + p4; Rank(parts[j - 1]) < Rank(parts[j])
  {
    var parts := p0 + p1 + p2 + p3 + p4;
    forall k | 0 <= k < |parts|
      ensures Rank(parts[k]) == (if k < 1 then 0 else if k < 1 + |p1| then 1 else if k < 1 + |p1| + |p2| then 2
                                  else if k < 1 + |p1| + |p2| + |p3| then 3 else 4)
    {
      if k < 1 {
        assert parts[k] == p0[k];
      } else if k < 1 + |p1| {
        assert parts[k] == p1[k - 1] && p1[k - 1] in p1;
      } else if k < 1 + |p1| + |p2| {
        assert parts[k] == p2[k - 1 - |p1|] && p2[k - 1 - |p1|] in p2;
      } else if k < 1 + |p1| + |p2| + |p3| {
        assert parts[k] == p3[k - 1 - |p1| - |p2|] && p3[k - 1 - |p1| - |p2|] in p3;
      } else {
        assert parts[k] == p4[k - 1 - |p1| - |p2| - |p3|] && p4[k - 1 - |p1| - |p2| - |p3|] in p4;
      }
    }
  }

  /** The text of one part. */
  function Render(p: SummaryPart): string
  {
    match p
    case EmotionPart(x) => "*" + x + "*"
    case IntensityPart(i) => "(" + IntToString(i) + "/10)"
    case BodyPart(x) => "\nТело: " + x
    case ReasonPart(x) => "\nПричина: " + x
    case NotePart(x) => "\nЗаметка: " + x
  }

  function RenderAll(parts: seq<SummaryPart>): (texts: seq<string>)
    ensures |texts| == |parts| && forall i :: 0 <= i < |parts| ==> texts[i] == Render(parts[i])
  {
    seq(|parts|, i requires 0 <= i < |parts| => Render(parts[i]))
  }

  /** Python's `sep.join(ss)`. */
  function Join(sep: string, ss: seq<string>): string
  {
    if |ss| == 0 then "" else if |ss| == 1 then ss[0] else ss[0] + sep + Join(sep, ss[1..])
  }

  /** Python's `''.join(ss)`. */
  function Concat(ss: seq<string>): string
  {
    if ss == [] then "" else ss[0] + Concat(ss[1..])
  }

  const SummaryHead := "Записано!\n\n"
  const SummaryFoot := "\n\nБереги себя."

  /** `final_text` (bot.py:505-520), built from the rendered parts of an entry. */
  function SummaryText(e: Entry): string
  {
    Layout(RenderAll(SummaryParts(e)))
  }

  /** The first two texts joined by a space, the rest concatenated, between head and foot. */
  function Layout(texts: seq<string>): string
  {
    var k := if |texts| < 2 then |texts| else 2;
    SummaryHead + Join(" ", texts[..k]) + Concat(texts[k..]) + SummaryFoot
  }

  lemma LayoutOne(a: string)
    ensures Layout([a]) == SummaryHead + a + SummaryFoot
  {
    assert [a][1..] == [];
  }

  lemma LayoutTwoOrMore(a: string, b: string, tail: seq<string>)
    ensures Layout([a, b] + tail) == SummaryHead + a + " " + b + Concat(tail) + SummaryFoot
  {
    var texts := [a, b] + tail;
    assert texts[..2] == [a, b];
    assert texts[2..] == tail;
    assert [a, b][1..] == [b];
    assert Join(" ", [a, b]) == a + " " + b;
  }

  /** An optional line of the summary: shown only when its value is present and non-empty. */
  function Line(heading: string, o: Option<string>): string
  {
    if Filled(o) then heading + o.value else ""
  }

  /** The body, reason and note lines, in that order. */
  function Lines(e: Entry): string
  {
    Line("\nТело: ", e.bodySensation) + Line("\nПричина: ", e.reason) + Line("\nЗаметка: ", e.note)
  }

  lemma {:induction false} ConcatAppend(a: seq<string>, b: seq<string>)
    ensures Concat(a + b) == Concat(a) + Concat(b)
    decreases |a|
  {
    if a == [] {
      assert a + b == b;
    } else {
      assert (a + b)[1..] == a[1..] + b;
      ConcatAppend(a[1..], b);
    }
  }

  function Opt(present: bool, s: string): seq<string>
  {
    if present then [s] else []
  }

  lemma ConcatOpt(present: bool, s: string)
    ensures Concat(Opt(present, s)) == (if present then s else "")
  {
    if present {
      assert Opt(present, s)[1..] == [];
    }
  }

  /** The rendered body, reason and note parts concatenate to `Lines`. */
  lemma RestRenders(e: Entry)
    ensures Concat(Opt(Filled(e.bodySensation), Line("\nТело: ", e.bodySensation))
                   + Opt(Filled(e.reason), Line("\nПричина: ", e.reason))
                   + Opt(Filled(e.note), Line("\nЗаметка: ", e.note))) == Lines(e)
  {
    var b := Opt(Filled(e.bodySensation), Line("\nТело: ", e.bodySensation));
    var r := Opt(Filled(e.reason), Line("\nПричина: ", e.reason));
    var n := Opt(Filled(e.note), Line("\nЗаметка: ", e.note));
    ConcatAppend(b + r, n);
    ConcatAppend(b, r);
    ConcatOpt(Filled(e.bodySensation), Line("\nТело: ", e.bodySensation));
    ConcatOpt(Filled(e.reason), Line("\nПричина: ", e.reason));
    ConcatOpt(Filled(e.note), Line("\nЗаметка: ", e.note));
  }

  lemma RenderAllAppend(a: seq<SummaryPart>, b: seq<SummaryPart>)
    ensures RenderAll(a + b) == RenderAll(a) + RenderAll(b)
  {
  }

  lemma LinesRender(e: Entry)
    ensures RenderAll(LineParts(e))
            == Opt(Filled(e.bodySensation), Line("\nТело: ", e.bodySensation))
               + Opt(Filled(e.reason), Line("\nПричина: ", e.reason))
               + Opt(Filled(e.note), Line("\nЗаметка: ", e.note))
  {
    var b := if Filled(e.bodySensation) then [BodyPart(e.bodySensation.value)] else [];
    var r := if Filled(e.reason) then [ReasonPart(e.reason.value)] else [];
    var n := if Filled(e.note) then [NotePart(e.note.value)] else [];
    RenderAllAppend(b + r, n);
    RenderAllAppend(b, r);
  }

  /** The rendered parts: the emotion, the intensity if stored, then the non-empty lines. */
  lemma SummaryTexts(e: Entry)
    ensures RenderAll(SummaryParts(e))
            == ["*" + e.emotion + "*"]
               + (if e.intensity.Some? then ["(" + IntToString(e.intensity.value) + "/10)"] else [])
               + (Opt(Filled(e.bodySensation), Line("\nТело: ", e.bodySensation))
                  + Opt(Filled(e.reason), Line("\nПричина: ", e.reason))
                  + Opt(Filled(e.note), Line("\nЗаметка: ", e.note)))
  {
    var m := if e.intensity.Some? then [IntensityPart(e.intensity.value)] else [];
    assert SummaryParts(e) == [EmotionPart(e.emotion)] + m + LineParts(e);
    RenderAllAppend([EmotionPart(e.emotion)] + m, LineParts(e));
    RenderAllAppend([EmotionPart(e.emotion)], m);
    assert RenderAll([EmotionPart(e.emotion)]) == ["*" + e.emotion + "*"];
    assert RenderAll(m) == if e.intensity.Some? then ["(" + IntToString(e.intensity.value) + "/10)"] else [];
    LinesRender(e);
  }

  /**
   * The summary of an entry with an intensity (0 included): the emotion in asterisks, a
   * space, `(i/10)`, then the body, reason and note lines that are non-empty, in that order.
   */
  lemma SummaryWithIntensity(e: Entry)
    requires e.intensity.Some?
    ensures SummaryText(e) == SummaryHead + ("*" + e.emotion + "*") + " "
                              + ("(" + IntToString(e.intensity.value) + "/10)") + Lines(e) + SummaryFoot
  {
    var rest := Opt(Filled(e.bodySensation), Line("\nТело: ", e.bodySensation))
                + Opt(Filled(e.reason), Line("\nПричина: ", e.reason))
                + Opt(Filled(e.note), Line("\nЗаметка: ", e.note));
    var emo := "*" + e.emotion + "*";
    var mid := "(" + IntToString(e.intensity.value) + "/10)";
    SummaryTexts(e);
    RestRenders(e);
    assert RenderAll(SummaryParts(e)) == [emo, mid] + rest;
    LayoutTwoOrMore(emo, mid, rest);
  }

  /**
   * The summary of an entry without an intensity: the emotion in asterisks alone when no
   * line is filled; otherwise the emotion, a space, then the lines, so the text has `* \n`
   * where the other lines begin with a bare `\n`.
   */
  lemma SummaryWithoutIntensity(e: Entry)
    requires e.intensity.None?
    ensures Lines(e) == "" ==> SummaryText(e) == SummaryHead + ("*" + e.emotion + "*") + SummaryFoot
    ensures Lines(e) != "" ==>
      SummaryText(e) == SummaryHead + ("*" + e.emotion + "*") + " " + Lines(e) + SummaryFoot
  {
    var rest := Opt(Filled(e.bodySensation), Line("\nТело: ", e.bodySensation))
                + Opt(Filled(e.reason), Line("\nПричина: ", e.reason))
                + Opt(Filled(e.note), Line("\nЗаметка: ", e.note));
    var emo := "*" + e.emotion + "*";
    SummaryTexts(e);
    RestRenders(e);
    assert RenderAll(SummaryParts(e)) == [emo] + rest;
    if rest == [] {
      assert [emo] + rest == [emo];
      LayoutOne(emo);
      assert Lines(e) == "";
    } else {
      assert [emo] + rest == [emo, rest[0]] + rest[1..];
      LayoutTwoOrMore(emo, rest[0], rest[1..]);
      assert Lines(e) == rest[0] + Concat(rest[1..]);
      assert rest[0] != "" by {
        assert rest[0] in rest;
      }
      SeqAssoc(SummaryHead + emo + " ", rest[0], Concat(rest[1..]));
    }
  }

  lemma SeqAssoc<T>(a: seq<T>, b: seq<T>, c: seq<T>)
    ensures a + b + c == a + (b + c)
  {
  }

  // ---------------------------------------------------------------------------------------
  // The handlers
  // ---------------------------------------------------------------------------------------

  function Unchanged(s: FlowState, d: Draft, effect: Effect): (o: Outcome)
    ensures o.state == s && o.draft == d && o.saved == None && o.effect == effect
  {
    Outcome(s, d, None, effect)
  }

  /**
   * `start_emotion_check` (bot.py:240-256): enter `waiting_for_emotion_input` with category,
   * emotion, intensity, body sensation and reason set to `None`; the note is kept.
   */
  function StartCheck(d: Draft): (o: Outcome)
    ensures o.state == EmotionInput && o.saved == None && o.effect == Show(EmotionPrompt)
    ensures o.draft == Draft(Null, Null, Null, Null, Null, d.note)
  {
    Outcome(EmotionInput, d.(category := Null, emotion := Null, intensity := Null, bodySensation := Null, reason := Null),
            None, Show(EmotionPrompt))
  }

  /**
   * `save_entry_and_finish` (bot.py:489-527): store one entry built from the draft, show the
   * summary and clear the FSM context. A `None` emotion makes the insert fail (the column is
   * NOT NULL), so the handler raises before clearing.
   */
  function Commit(d: Draft): (o: Outcome)
    ensures d.emotion.Null? ==> o == Outcome(Note, d, None, Raised)
    ensures !d.emotion.Null? ==>
      o.state == Idle && o.draft == Cleared && o.saved == Some(EntryOf(d))
      && o.effect == Show(Summary(EntryOf(d)))
  {
    if d.emotion.Null? then Outcome(Note, d, None, Raised)
    else
      var e := EntryOf(d);
      Outcome(Idle, Cleared, Some(e), Show(Summary(e)))
  }

  /** The plain-message handlers of the check-in flow (bot.py:259-273, 410-413, 432-435, 476-479). */
  function OnText(s: FlowState, d: Draft, text: string): Outcome
  {
    match s
    case EmotionInput =>
      Outcome(BodySensation, d.(emotion := Value(Trim(text)), category := Null, intensity := Null), None, Show(BodyPrompt))
    case BodySensation => Outcome(Reason, d.(bodySensation := Value(Trim(text))), None, Show(ReasonPrompt))
    case Reason => Outcome(Note, d.(reason := Value(Trim(text))), None, Show(NoteOffer))
    case Note => Commit(d.(note := Value(Trim(text))))
    case _ => Unchanged(s, d, Unhandled)
  }

  /** `select_category` (bot.py:302-315): the category is stored and the state set before the emoji lookup. */
  function PickCategory(cat: Catalog, d: Draft, i: nat): Outcome
  {
    if i < |cat.categories| then
      var c := cat.categories[i];
      Outcome(Emotion, d.(category := Value(c)), None, if c in cat.emotions then Show(EmotionPicker(c)) else Raised)
    else Unchanged(Category, d, Raised)
  }

  /** `select_emotion` (bot.py:328-351): alert without a (non-empty) category, otherwise store the curated emotion. */
  function PickEmotion(cat: Catalog, d: Draft, i: nat): Outcome
  {
    if !d.category.Value? || d.category.v == "" then Unchanged(Emotion, d, Alert)
    else
      var c := d.category.v;
      if c !in cat.emotions || i >= |cat.emotions[c]| then Unchanged(Emotion, d, Raised)
      else Outcome(BodySensation, d.(emotion := Value(cat.emotions[c][i]), intensity := Null), None, Show(BodyPrompt))
  }

  /** `select_body_sensation` (bot.py:385-400): `body_custom` only prompts; `body_i` stores the sensation. */
  function PickBody(cat: Catalog, d: Draft, t: Token): Outcome
    requires t.Body? || t.BodyCustom?
  {
    if t.BodyCustom? then Unchanged(BodySensation, d, Show(OwnBodyPrompt))
    else if t.index < |cat.bodySensations| then
      Outcome(Reason, d.(bodySensation := Value(cat.bodySensations[t.index])), None, Show(ReasonPrompt))
    else Unchanged(BodySensation, d, Raised)
  }

  /**
   * The callback handlers. Each token is accepted by exactly one handler, except `tz_`, whose
   * two handlers have disjoint states, and `show_emotions`, whose two handlers do the same, so
   * matching on the token and then on the handler's state filter is the first-match routing.
   */
  function OnPress(cat: Catalog, s: FlowState, d: Draft, t: Token): Outcome
  {
    match t
    case OnboardingContinue =>
      if s == IntroRead then Outcome(OnboardingTimezone, d, None, Show(TimezonePicker)) else Unchanged(s, d, Unhandled)
    case Tz(o) =>
      if s == OnboardingTimezone then
        Outcome(Idle, Cleared, None, Store(Onboard(o, DefaultStartHour, DefaultEndHour, DefaultChecksPerDay)))
      else if s == SettingsTimezone then Outcome(Idle, Cleared, None, Store(ChangeTimezone(o)))
      else Unchanged(s, d, Unhandled)
    case Check => StartCheck(d)
    case ShowEmotions => Outcome(Category, d, None, Show(CategoryPicker))
    case BackToInput => StartCheck(d)
    case Cat(i) => if s == Category then PickCategory(cat, d, i) else Unchanged(s, d, Unhandled)
    case OtherEmotion => Outcome(EmotionInput, d, None, Show(OwnEmotionPrompt))
    case Em(i) => if s == Emotion then PickEmotion(cat, d, i) else Unchanged(s, d, Unhandled)
    case IntensityPick(v) =>
      if s == Intensity then Outcome(BodySensation, d.(intensity := Value(v)), None, Show(BodyPrompt))
      else Unchanged(s, d, Unhandled)
    case SkipIntensity =>
      if s == Intensity then Outcome(BodySensation, d.(intensity := Null), None, Show(BodyPrompt))
      else Unchanged(s, d, Unhandled)
    case Body(_) => if s == BodySensation then PickBody(cat, d, t) else Unchanged(s, d, Unhandled)
    case BodyCustom => if s == BodySensation then PickBody(cat, d, t) else Unchanged(s, d, Unhandled)
    case SkipBody =>
      if s == BodySensation then Outcome(Reason, d.(bodySensation := Null), None, Show(ReasonPrompt))
      else Unchanged(s, d, Unhandled)
    case SkipReason =>
      if s == Reason then Outcome(Note, d.(reason := Null), None, Show(NoteOffer)) else Unchanged(s, d, Unhandled)
    case AddNote => if s == Note then Unchanged(s, d, Show(NotePrompt)) else Unchanged(s, d, Unhandled)
    case FinishEntry => if s == Note then Commit(d.(note := Null)) else Unchanged(s, d, Unhandled)
    case Delay15 => Unchanged(s, d, Store(DelayCheck(15)))
    case SkipToday => Unchanged(s, d, Store(SkipTodayChecks))
    case Diary => Unchanged(s, d, Show(DiaryView(0)))
    case DiaryPage(p) => Unchanged(s, d, Show(DiaryView(p)))
    case Stats => Unchanged(s, d, Show(StatsView))
    case Settings => Unchanged(s, d, Show(SettingsView))
    case ChangeTz => Outcome(SettingsTimezone, d, None, Show(TimezonePicker))
    case ChangeFrequency => Unchanged(s, d, Show(FrequencyPicker))
    case Freq(n) => Unchanged(s, d, Store(SetFrequency(n)))
    case Menu => Outcome(Idle, Cleared, None, Show(MainMenu))
    case Other(_) => Unchanged(s, d, Unhandled)
  }

  /**
   * The command handlers (bot.py:163-193, 229-231, 552-554, 609-611, 652-654, 782-797), in the
   * order of registration relative to the state-filtered message handlers.
   */
  function OnCommand(s: FlowState, d: Draft, c: Cmd, text: string): Outcome
  {
    if c.Start? then
      (if c.onboarded then Unchanged(s, d, Show(WelcomeBack)) else Outcome(IntroRead, d, None, Show(Intro)))
    else if c.CheckCmd? then StartCheck(d)
    else if TakesText(s) then OnText(s, d, text)
    else Unchanged(s, d, Show(if c.DiaryCmd? then DiaryView(0) else if c.StatsCmd? then StatsView
                              else if c.SettingsCmd? then SettingsView else HelpView))
  }

  /**
   * The dispatcher. `/start` and `/check` are registered before the state-filtered message
   * handlers, `/diary`, `/stats`, `/settings` and `/help` after them, so in a state that
   * takes text those four commands are taken as text.
   */
  function Step(cat: Catalog, s: FlowState, d: Draft, a: Action): Outcome
  {
    match a
    case Command(c, text) => OnCommand(s, d, c, text)
    case Typed(text) => OnText(s, d, text)
    case Press(t) => OnPress(cat, s, d, t)
  }

  // ---------------------------------------------------------------------------------------
  // Properties of one step
  // ---------------------------------------------------------------------------------------

  /** Only `save_entry_and_finish` stores an entry: from `waiting_for_note`, ending idle with a cleared draft. */
  lemma CommitOnlyFromNote(cat: Catalog, s: FlowState, d: Draft, a: Action)
    ensures var o := Step(cat, s, d, a);
      o.saved.Some? ==>
        (s == Note && o.state == Idle && o.draft == Cleared && (a.Typed? || a.Command? || a == Press(FinishEntry)))
  {
    var o := Step(cat, s, d, a);
    if a.Press? {
      assert o == OnPress(cat, s, d, a.token);
      PressCommitsOnlyFinish(cat, s, d, a.token);
    } else if a.Typed? {
      assert o == OnText(s, d, a.text);
      TextCommitsOnlyAtNote(s, d, a.text);
    } else {
      assert o == OnCommand(s, d, a.cmd, a.text);
      CommandCommitsOnlyAtNote(s, d, a.cmd, a.text);
    }
  }

  lemma CommandCommitsOnlyAtNote(s: FlowState, d: Draft, c: Cmd, text: string)
    ensures var o := OnCommand(s, d, c, text);
      o.saved.Some? ==> s == Note && o.state == Idle && o.draft == Cleared
  {
    TextCommitsOnlyAtNote(s, d, text);
  }

  lemma PressCommitsOnlyFinish(cat: Catalog, s: FlowState, d: Draft, t: Token)
    ensures var o := OnPress(cat, s, d, t);
      o.saved.Some? ==> s == Note && t == FinishEntry && o.state == Idle && o.draft == Cleared
  {
  }

  lemma TextCommitsOnlyAtNote(s: FlowState, d: Draft, text: string)
    ensures var o := OnText(s, d, text);
      o.saved.Some? ==> s == Note && o.state == Idle && o.draft == Cleared
  {
  }

  /** `menu` clears the FSM context from every state and stores nothing. */
  lemma MenuClears(cat: Catalog, s: FlowState, d: Draft)
    ensures Step(cat, s, d, Press(Menu)) == Outcome(Idle, Cleared, None, Show(MainMenu))
  {
  }

  /** The handlers without a state filter act the same from every state. */
  lemma StatelessHandlers(cat: Catalog, s: FlowState, d: Draft)
    ensures Step(cat, s, d, Press(Check)) == StartCheck(d) == Step(cat, s, d, Press(BackToInput))
    ensures Step(cat, s, d, Command(CheckCmd, "/check")) == StartCheck(d)
    ensures Step(cat, s, d, Press(ShowEmotions)) == Outcome(Category, d, None, Show(CategoryPicker))
    ensures Step(cat, s, d, Press(OtherEmotion)) == Outcome(EmotionInput, d, None, Show(OwnEmotionPrompt))
  {
  }

  /**
   * Free text in `waiting_for_emotion_input` stores the stripped text as the emotion, clears
   * category and intensity, keeps the rest and asks for body sensations.
   */
  lemma FreeTextEmotion(cat: Catalog, d: Draft, text: string)
    ensures var o := Step(cat, EmotionInput, d, Typed(text));
      o.state == BodySensation && o.saved == None
      && o.draft == Draft(Null, Value(Trim(text)), Null, d.bodySensation, d.reason, d.note)
  {
  }

  /** A curated pick stores that category's `i`-th emotion, clears intensity and asks for body sensations. */
  lemma CuratedEmotion(cat: Catalog, d: Draft, c: string, i: nat)
    requires d.category == Value(c) && c != "" && c in cat.emotions && i < |cat.emotions[c]|
    ensures var o := Step(cat, Emotion, d, Press(Em(i)));
      o.state == BodySensation && o.saved == None
      && o.draft == d.(emotion := Value(cat.emotions[c][i]), intensity := Null)
  {
  }

  /** The actions that only show something leave the FSM state and the draft as they were. */
  lemma NoChangeActions(cat: Catalog, d: Draft, i: nat)
    ensures (!d.category.Value? || d.category.v == "") ==>
      Step(cat, Emotion, d, Press(Em(i))) == Outcome(Emotion, d, None, Alert)
    ensures Step(cat, BodySensation, d, Press(BodyCustom)) == Outcome(BodySensation, d, None, Show(OwnBodyPrompt))
    ensures Step(cat, Note, d, Press(AddNote)) == Outcome(Note, d, None, Show(NotePrompt))
  {
  }

  /** In a state that takes text, `/diary`, `/stats`, `/settings` and `/help` are taken as that text. */
  lemma LateCommandsAreText(cat: Catalog, s: FlowState, d: Draft, c: Cmd, text: string)
    requires TakesText(s) && !c.Start? && !c.CheckCmd?
    ensures Step(cat, s, d, Command(c, text)) == Step(cat, s, d, Typed(text))
  {
  }

  // ---------------------------------------------------------------------------------------
  // The invariant of the reachable states
  // ---------------------------------------------------------------------------------------

  /**
   * What holds in every state the bot reaches from an empty context: the intensity state and
   * an intensity value never occur, every state after the emotion step has an emotion, and
   * `waiting_for_emotion` has a category of the catalog.
   */
  ghost predicate Inv(cat: Catalog, s: FlowState, d: Draft)
  {
    s != Intensity && !d.intensity.Value?
    && (s == BodySensation || s == Reason || s == Note ==> d.emotion.Value?)
    && (s == Emotion ==> d.category.Value? && d.category.v in cat.categories)
  }

  /** What one step must keep: the invariant, and no stored entry with an intensity. */
  ghost predicate Keeps(cat: Catalog, s: FlowState, d: Draft, o: Outcome)
  {
    (s != Intensity ==> o.state != Intensity)
    && (Inv(cat, s, d) ==> Inv(cat, o.state, o.draft) && (o.saved.Some? ==> o.saved.value.intensity == None))
  }

  lemma TextKeeps(cat: Catalog, s: FlowState, d: Draft, text: string)
    ensures Keeps(cat, s, d, OnText(s, d, text))
  {
  }

  lemma CommandKeeps(cat: Catalog, s: FlowState, d: Draft, c: Cmd, text: string)
    ensures Keeps(cat, s, d, OnCommand(s, d, c, text))
  {
    if !c.Start? && !c.CheckCmd? && TakesText(s) {
      assert OnCommand(s, d, c, text) == OnText(s, d, text);
      TextKeeps(cat, s, d, text);
    }
  }

  lemma OnboardingPressKeeps(cat: Catalog, s: FlowState, d: Draft, t: Token)
    requires t.OnboardingContinue? || t.Tz? || t.ChangeTz? || t.Menu?
    ensures Keeps(cat, s, d, OnPress(cat, s, d, t))
  {
  }

  lemma EntryPressKeeps(cat: Catalog, s: FlowState, d: Draft, t: Token)
    requires t.Check? || t.ShowEmotions? || t.BackToInput? || t.OtherEmotion?
    ensures Keeps(cat, s, d, OnPress(cat, s, d, t))
  {
  }

  lemma PickPressKeeps(cat: Catalog, s: FlowState, d: Draft, t: Token)
    requires t.Cat? || t.Em? || t.Body? || t.BodyCustom?
    ensures Keeps(cat, s, d, OnPress(cat, s, d, t))
  {
  }

  lemma SkipPressKeeps(cat: Catalog, s: FlowState, d: Draft, t: Token)
    requires t.IntensityPick? || t.SkipIntensity? || t.SkipBody? || t.SkipReason? || t.AddNote? || t.FinishEntry?
    ensures Keeps(cat, s, d, OnPress(cat, s, d, t))
  {
  }

  lemma OtherPressKeeps(cat: Catalog, s: FlowState, d: Draft, t: Token)
    requires t.Delay15? || t.SkipToday? || t.Diary? || t.DiaryPage? || t.Stats? || t.Settings?
             || t.ChangeFrequency? || t.Freq? || t.Other?
    ensures Keeps(cat, s, d, OnPress(cat, s, d, t))
  {
  }

  lemma StepKeeps(cat: Catalog, s: FlowState, d: Draft, a: Action)
    ensures Keeps(cat, s, d, Step(cat, s, d, a))
  {
    var o := Step(cat, s, d, a);
    if a.Press? {
      assert o == OnPress(cat, s, d, a.token);
      PressKeeps(cat, s, d, a.token);
    } else if a.Typed? {
      assert o == OnText(s, d, a.text);
      TextKeeps(cat, s, d, a.text);
    } else {
      assert o == OnCommand(s, d, a.cmd, a.text);
      CommandKeeps(cat, s, d, a.cmd, a.text);
    }
  }

  lemma PressKeeps(cat: Catalog, s: FlowState, d: Draft, t: Token)
    ensures Keeps(cat, s, d, OnPress(cat, s, d, t))
  {
      if t.OnboardingContinue? || t.Tz? || t.ChangeTz? || t.Menu? {
        OnboardingPressKeeps(cat, s, d, t);
      } else if t.Check? || t.ShowEmotions? || t.BackToInput? || t.OtherEmotion? {
        EntryPressKeeps(cat, s, d, t);
      } else if t.Cat? || t.Em? || t.Body? || t.BodyCustom? {
        PickPressKeeps(cat, s, d, t);
      } else if t.IntensityPick? || t.SkipIntensity? || t.SkipBody? || t.SkipReason? || t.AddNote? || t.FinishEntry? {
        SkipPressKeeps(cat, s, d, t);
      } else {
        OtherPressKeeps(cat, s, d, t);
      }
  }

  /** No handler other than the intensity handlers themselves leads into `waiting_for_intensity`. */
  lemma NeverEntersIntensity(cat: Catalog, s: FlowState, d: Draft, a: Action)
    ensures s != Intensity ==> Step(cat, s, d, a).state != Intensity
  {
    StepKeeps(cat, s, d, a);
  }

  /**
   * Every handler keeps the invariant, and in a reachable `waiting_for_note` the commit
   * succeeds: the draft has an emotion, so the insert is not refused.
   */
  lemma StepKeepsInv(cat: Catalog, s: FlowState, d: Draft, a: Action)
    requires Inv(cat, s, d)
    ensures var o := Step(cat, s, d, a); Inv(cat, o.state, o.draft)
    ensures var o := Step(cat, s, d, a); o.saved.Some? ==> o.saved.value.intensity == None
    ensures s == Note && (a == Press(FinishEntry) || a.Typed?) ==> Step(cat, s, d, a).saved.Some?
  {
    StepKeeps(cat, s, d, a);
  }

  /** The journal and final context after a sequence of events. */
  datatype Trace = Trace(state: FlowState, draft: Draft, journal: seq<Entry>)

  function Run(cat: Catalog, s: FlowState, d: Draft, actions: seq<Action>): Trace
    decreases |actions|
  {
    if actions == [] then Trace(s, d, [])
    else
      var o := Step(cat, s, d, actions[0]);
      var rest := Run(cat, o.state, o.draft, actions[1..]);
      Trace(rest.state, rest.draft, (if o.saved.Some? then [o.saved.value] else []) + rest.journal)
  }

  /**
   * From any context the invariant holds in, every sequence of events keeps it; in particular
   * from a fresh user the intensity step is never reached and no stored entry has an intensity.
   */
  lemma {:induction false} RunKeepsInv(cat: Catalog, s: FlowState, d: Draft, actions: seq<Action>)
    requires Inv(cat, s, d)
    ensures var t := Run(cat, s, d, actions);
      Inv(cat, t.state, t.draft) && forall e :: e in t.journal ==> e.intensity == None
    decreases |actions|
  {
    if actions != [] {
      StepKeepsInv(cat, s, d, actions[0]);
      var o := Step(cat, s, d, actions[0]);
      RunKeepsInv(cat, o.state, o.draft, actions[1..]);
    }
  }

  lemma FreshUserNeverRecordsIntensity(cat: Catalog, actions: seq<Action>)
    ensures var t := Run(cat, Idle, Cleared, actions);
      t.state != Intensity && forall e :: e in t.journal ==> e.intensity == None
  {
    RunKeepsInv(cat, Idle, Cleared, actions);
  }

  /**
   * The round trip of a check-in from idle: show the ideas, pick a category, an emotion and a
   * body sensation, type a reason and finish without a note. Exactly one entry is stored,
   * with category, emotion, body sensation and the stripped reason, no intensity and no
   * note, and the user is back to no state.
   */
  lemma CheckInRoundTrip(cat: Catalog, ci: nat, ei: nat, bi: nat, reason: string)
    requires ci < |cat.categories| && cat.categories[ci] != "" && cat.categories[ci] in cat.emotions
    requires ei < |cat.emotions[cat.categories[ci]]| && bi < |cat.bodySensations|
    ensures var c := cat.categories[ci];
      Run(cat, Idle, Cleared, [Press(ShowEmotions), Press(Cat(ci)), Press(Em(ei)), Press(Body(bi)),
                               Typed(reason), Press(FinishEntry)])
      == Trace(Idle, Cleared, [Entry(cat.emotions[c][ei], Some(c), None, Some(cat.bodySensations[bi]),
                                     Some(Trim(reason)), None)])
  {
    var c := cat.categories[ci];
    var d2 := Cleared.(category := Value(c));
    var d3 := d2.(emotion := Value(cat.emotions[c][ei]), intensity := Null);
    var r3 := [Press(Body(bi)), Typed(reason), Press(FinishEntry)];
    var r2 := [Press(Em(ei))] + r3;
    var r1 := [Press(Cat(ci))] + r2;
    assert [Press(ShowEmotions), Press(Cat(ci)), Press(Em(ei)), Press(Body(bi)), Typed(reason), Press(FinishEntry)]
           == [Press(ShowEmotions)] + r1;
    BodyReasonFinish(cat, d3, bi, reason);
    CuratedEmotion(cat, d2, c, ei);
    RunSilent(cat, Emotion, d2, Press(Em(ei)), r3);
    CategoryPicked(cat, Cleared, ci);
    RunSilent(cat, Category, Cleared, Press(Cat(ci)), r2);
    StatelessHandlers(cat, Idle, Cleared);
    RunSilent(cat, Idle, Cleared, Press(ShowEmotions), r1);
  }

  /**
   * The second half of the check-in: with an emotion chosen, picking a body sensation, typing
   * a reason and finishing without a note stores one entry and returns to no state.
   */
  lemma BodyReasonFinish(cat: Catalog, d: Draft, bi: nat, reason: string)
    requires d.emotion.Value? && bi < |cat.bodySensations|
    ensures Run(cat, BodySensation, d, [Press(Body(bi)), Typed(reason), Press(FinishEntry)])
            == Trace(Idle, Cleared, [EntryOf(d.(bodySensation := Value(cat.bodySensations[bi]),
                                                reason := Value(Trim(reason)), note := Null))])
  {
    var d4 := d.(bodySensation := Value(cat.bodySensations[bi]));
    var d5 := d4.(reason := Value(Trim(reason)));
    var r5 := [Press(FinishEntry)];
    var r4 := [Typed(reason)] + r5;
    assert [Press(Body(bi)), Typed(reason), Press(FinishEntry)] == [Press(Body(bi))] + r4;
    assert Run(cat, Note, d5, r5) == Trace(Idle, Cleared, [EntryOf(d5.(note := Null))]) by {
      FinishWithoutNote(cat, d5);
      assert r5[1..] == [];
    }
    ReasonTyped(cat, d4, reason);
    RunSilent(cat, Reason, d4, Typed(reason), r5);
    BodyPicked(cat, d, bi);
    RunSilent(cat, BodySensation, d, Press(Body(bi)), r4);
  }

  /**
   * Picking a category by its index stores it and enters the emotion step even when the
   * category has no emotion list; the missing list then raises (bot.py:302-315).
   */
  lemma CategoryPicked(cat: Catalog, d: Draft, i: nat)
    requires i < |cat.categories|
    ensures var o := Step(cat, Category, d, Press(Cat(i)));
      o.state == Emotion && o.saved == None && o.draft == d.(category := Value(cat.categories[i]))
      && (o.effect == Raised <==> cat.categories[i] !in cat.emotions)
  {
  }

  /** Picking a listed body sensation stores it and moves to the reason step (bot.py:385-400). */
  lemma BodyPicked(cat: Catalog, d: Draft, i: nat)
    requires i < |cat.bodySensations|
    ensures var o := Step(cat, BodySensation, d, Press(Body(i)));
      o.state == Reason && o.saved == None && o.draft == d.(bodySensation := Value(cat.bodySensations[i]))
  {
  }

  /** A typed reason is stored stripped and the note step follows (bot.py:432-435). */
  lemma ReasonTyped(cat: Catalog, d: Draft, text: string)
    ensures var o := Step(cat, Reason, d, Typed(text));
      o.state == Note && o.saved == None && o.draft == d.(reason := Value(Trim(text)))
  {
  }

  /** Finishing at the note offer stores the entry with a null note (bot.py:470-486). */
  lemma FinishWithoutNote(cat: Catalog, d: Draft)
    ensures Step(cat, Note, d, Press(FinishEntry)) == Commit(d.(note := Null))
  {
  }

  /** An event that stores nothing leaves the rest of the run to the context it produces. */
  lemma RunSilent(cat: Catalog, s: FlowState, d: Draft, a: Action, rest: seq<Action>)
    requires Step(cat, s, d, a).saved == None
    ensures var o := Step(cat, s, d, a); Run(cat, s, d, [a] + rest) == Run(cat, o.state, o.draft, rest)
  {
    assert ([a] + rest)[1..] == rest;
  }

  // ---------------------------------------------------------------------------------------
  // One user's FSM context, changed in place
  // ---------------------------------------------------------------------------------------

  /** The per-user FSM context of the memory storage, and the entries this user has stored. */
  class Session {
    const catalog: Catalog
    var state: FlowState
    var draft: Draft
    var journal: seq<Entry>

    ghost predicate Valid()
      reads this
    {
      Inv(catalog, state, draft)
    }

    constructor (catalog: Catalog)
      ensures this.catalog == catalog && state == Idle && draft == Cleared && journal == []
      ensures Valid()
    {
      this.catalog := catalog;
      state := Idle;
      draft := Cleared;
      journal := [];
    }

    /** Handle one inbound event: move to the handler's state and draft and append what it stored. */
    method Handle(a: Action) returns (effect: Effect)
      requires Valid()
      modifies this
      ensures Valid()
      ensures var o := Step(catalog, old(state), old(draft), a);
        state == o.state && draft == o.draft && effect == o.effect
        && journal == old(journal) + (if o.saved.Some? then [o.saved.value] else [])
      ensures forall e :: e in journal && e !in old(journal) ==> e.intensity == None
    {
      StepKeepsInv(catalog, state, draft, a);
      var o := Step(catalog, state, draft, a);
      state := o.state;
      draft := o.draft;
      if o.saved.Some? {
        journal := journal + [o.saved.value];
      }
      effect := o.effect;
    }
  }
}
