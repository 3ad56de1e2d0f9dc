/**
 * Idea Crafter (app.py): a three-step wizard kept in the per-browser
 * session state.
 *   step 0  the topic form; a topic that is not blank is stored stripped
 *   step 1  the four follow-up questions; when none is blank the prompt is
 *           assembled from the fixed template
 *   step 2  the idea is generated once from the prompt and then reused on
 *           every re-render until "Generate Another Idea" resets the wizard
 *
 * The language-model call is a parameter `generate: string -> string`.
 * The pure functions below give one branch of `main` each; `Run` is one
 * execution of `main`; the class `SessionState` holds the four session
 * keys and updates them in place, each method proved against those
 * functions.
 */
module IdeaCrafter {
  import opened Wrappers
  import opened PyText

  // ---------------------------------------------------------------------
  // The prompt template
  // ---------------------------------------------------------------------

  const TemplateOpen := "I want to work in "
  const ProblemJoint := ", solve the problem of "
  const ImpactJoint := ", create an impact on "
  const SkillsJoint := ", and learn "
  const PlatformJoint := ". I will mainly use "
  const TemplateClose := "."

  /** `part` stands in `text` at offset `k`. */
  predicate At(part: string, text: string, k: int) {
    0 <= k && k + |part| <= |text| && text[k..k + |part|] == part
  }

  /** The parts written one after the other. */
  function Concat(parts: seq<string>): string {
    if parts == [] then "" else parts[0] + Concat(parts[1..])
  }

  /** Every part stands verbatim in the concatenation, right after the
      parts before it. */
  lemma {:induction false} ConcatAt(parts: seq<string>, k: nat)
    requires k < |parts|
    ensures At(parts[k], Concat(parts), |Concat(parts[..k])|)
  {
    if k == 0 {
      assert parts[..0] == [];
    } else {
      ConcatAt(parts[1..], k - 1);
      assert parts[..k][1..] == parts[1..][..k - 1];
      assert Concat(parts[..k]) == parts[0] + Concat(parts[1..][..k - 1]);
      var tail := Concat(parts[1..]);
      var off := |Concat(parts[1..][..k - 1])|;
      assert Concat(parts)[|parts[0]| + off..|parts[0]| + off + |parts[k]|] == tail[off..off + |parts[k]|];
    }
  }

  /** The pieces of the prompt of line 66-69: the fixed text of the
      template with the topic and the four raw answers between them. */
  function PromptParts(topic: string, problem: string, impact: string, skills: string, platform: string): seq<string> {
    [TemplateOpen, topic, ProblemJoint, problem, ImpactJoint, impact, SkillsJoint, skills,
     PlatformJoint, platform, TemplateClose]
  }

  /** The prompt of step 1, the f-string of lines 66-69: the template with
      the topic and the four raw answers put in. */
  function Prompt(topic: string, problem: string, impact: string, skills: string, platform: string): string {
    TemplateOpen + topic + ProblemJoint + problem + ImpactJoint + impact + SkillsJoint + skills
    + PlatformJoint + platform + TemplateClose
  }

  /** The topic and the four raw answers stand verbatim in the prompt, in
      template order, between the fixed pieces of the template, each right
      after the ones before it. */
  lemma PromptHoldsParts(topic: string, problem: string, impact: string, skills: string, platform: string)
    ensures var parts := PromptParts(topic, problem, impact, skills, platform);
            forall k :: 0 <= k < |parts| ==> At(parts[k], Prompt(topic, problem, impact, skills, platform), |Concat(parts[..k])|)
  {
    var parts := PromptParts(topic, problem, impact, skills, platform);
    PromptIsConcat(topic, problem, impact, skills, platform);
    forall k | 0 <= k < |parts|
      ensures At(parts[k], Concat(parts), |Concat(parts[..k])|)
    {
      ConcatAt(parts, k);
    }
  }

  lemma {:induction false} ConcatAppend(xs: seq<string>, ys: seq<string>)
    ensures Concat(xs + ys) == Concat(xs) + Concat(ys)
  {
    if xs == [] {
      assert xs + ys == ys;
    } else {
      assert (xs + ys)[0] == xs[0];
      assert (xs + ys)[1..] == xs[1..] + ys;
      ConcatAppend(xs[1..], ys);
    }
  }

  /** Adding the k-th part to the parts before it. */
  lemma ConcatSnoc(parts: seq<string>, k: nat)
    requires k < |parts|
    ensures Concat(parts[..k + 1]) == Concat(parts[..k]) + parts[k]
  {
    assert parts[..k + 1] == parts[..k] + [parts[k]];
    ConcatAppend(parts[..k], [parts[k]]);
    assert Concat([parts[k]]) == parts[k] + Concat([]);
  }

  /** The prompt is its pieces written one after the other. */
  lemma PromptIsConcat(topic: string, problem: string, impact: string, skills: string, platform: string)
    ensures Prompt(topic, problem, impact, skills, platform) == Concat(PromptParts(topic, problem, impact, skills, platform))
  {
    var parts := PromptParts(topic, problem, impact, skills, platform);
    assert parts[..0] == [];
    ConcatSnoc(parts, 0);
    var acc := TemplateOpen;
    assert Concat(parts[..1]) == acc;
    ConcatSnoc(parts, 1);
    assert Concat(parts[..2]) == acc + topic;
    acc := acc + topic;
    ConcatSnoc(parts, 2);
    assert Concat(parts[..3]) == acc + ProblemJoint;
    acc := acc + ProblemJoint;
    ConcatSnoc(parts, 3);
    assert Concat(parts[..4]) == acc + problem;
    acc := acc + problem;
    ConcatSnoc(parts, 4);
    assert Concat(parts[..5]) == acc + ImpactJoint;
    acc := acc + ImpactJoint;
    ConcatSnoc(parts, 5);
    assert Concat(parts[..6]) == acc + impact;
    acc := acc + impact;
    ConcatSnoc(parts, 6);
    assert Concat(parts[..7]) == acc + SkillsJoint;
    acc := acc + SkillsJoint;
    ConcatSnoc(parts, 7);
    assert Concat(parts[..8]) == acc + skills;
    acc := acc + skills;
    ConcatSnoc(parts, 8);
    assert Concat(parts[..9]) == acc + PlatformJoint;
    acc := acc + PlatformJoint;
    ConcatSnoc(parts, 9);
    assert Concat(parts[..10]) == acc + platform;
    acc := acc + platform;
    ConcatSnoc(parts, 10);
    assert Concat(parts[..11]) == acc + TemplateClose;
    acc := acc + TemplateClose;
    assert parts[..11] == parts;
    assert Prompt(topic, problem, impact, skills, platform) == acc;
  }

  /** The topic stands in the prompt right after the opening words. */
  lemma PromptNamesTopic(topic: string, problem: string, impact: string, skills: string, platform: string)
    ensures At(topic, Prompt(topic, problem, impact, skills, platform), |TemplateOpen|)
  {
    var parts := PromptParts(topic, problem, impact, skills, platform);
    PromptIsConcat(topic, problem, impact, skills, platform);
    ConcatAt(parts, 1);
    assert parts[..1] == [TemplateOpen];
    assert Concat(parts[..1]) == TemplateOpen + Concat([]);
  }

  // ---------------------------------------------------------------------
  // Session state
  // ---------------------------------------------------------------------

  /** The four session keys once the defaults of lines 34-39 are in place.
      `prompt` is `None` while the key has never been written. */
  datatype Session = Session(step: int, userTopic: string, prompt: Option<string>, idea: string)

  /** The keys as stored between reruns; a missing key is `None`. */
  datatype Stored = Stored(step: Option<int>, userTopic: Option<string>, prompt: Option<string>, idea: Option<string>)

  /** Lines 34-39: a default is written only for a key that is missing. */
  function WithDefaults(k: Stored): (s: Session)
    ensures s.step == (if k.step.Some? then k.step.value else 0)
    ensures s.userTopic == (if k.userTopic.Some? then k.userTopic.value else "")
    ensures s.idea == (if k.idea.Some? then k.idea.value else "")
    ensures s.prompt == k.prompt
  {
    Session(
      match k.step case Some(v) => v case None => 0,
      match k.userTopic case Some(v) => v case None => "",
      k.prompt,
      match k.idea case Some(v) => v case None => "")
  }

  /** What a session leaves stored for the next rerun. */
  function Store(s: Session): Stored {
    Stored(Some(s.step), Some(s.userTopic), s.prompt, Some(s.idea))
  }

  const NoKeys := Stored(None, None, None, None)

  /** A new session starts on the topic form with an empty topic and idea,
      and a rerun keeps every value already stored. */
  lemma DefaultsOnlyFillMissingKeys(s: Session)
    ensures WithDefaults(NoKeys) == Session(0, "", None, "")
    ensures WithDefaults(Store(s)) == s
  {
  }

  /** The states the wizard can be in. */
  predicate Valid(s: Session) {
    && 0 <= s.step <= 2
    && (s.step == 0 ==> s.userTopic == "" && s.idea == "")
    && (s.step >= 1 ==> s.userTopic != "" && IsStripped(s.userTopic))
    && (s.step == 1 ==> s.idea == "")
    && (s.step == 2 ==> s.prompt.Some? && At(s.userTopic, s.prompt.value, |TemplateOpen|))
  }

  /** Step 2 calls the generator only while no idea is stored. */
  predicate Generates(s: Session) {
    s.step == 2 && s.idea == ""
  }

  /** What step 2 needs in order not to fail: the prompt key exists
      whenever it is read. */
  predicate CanRender(s: Session) {
    Generates(s) ==> s.prompt.Some?
  }

  // ---------------------------------------------------------------------
  // The branches of main
  // ---------------------------------------------------------------------

  /** Lines 46-51: the topic form was submitted. */
  function AfterTopic(s: Session, initialInput: string): (r: Session)
    requires s.step == 0
    ensures r.step == 1 <==> !IsBlank(initialInput)
    ensures r.step != 1 ==> r == s
    ensures r.step == 1 ==> r.userTopic == Strip(initialInput) && r.userTopic != "" && IsStripped(r.userTopic)
    ensures r.prompt == s.prompt && r.idea == s.idea
  {
    var topic := Strip(initialInput);
    if topic == "" then s else s.(userTopic := topic, step := 1)
  }

  /** Line 63: some answer is empty after stripping. */
  predicate AnyBlank(problem: string, impact: string, skills: string, platform: string) {
    IsBlank(problem) || IsBlank(impact) || IsBlank(skills) || IsBlank(platform)
  }

  /** Lines 62-72: the follow-up form was submitted. */
  function AfterDetails(s: Session, problem: string, impact: string, skills: string, platform: string): (r: Session)
    requires s.step == 1
    ensures r.step == 2 <==> !AnyBlank(problem, impact, skills, platform)
    ensures r.step != 2 ==> r == s
    ensures r.step == 2 ==> r.prompt == Some(Prompt(s.userTopic, problem, impact, skills, platform))
    ensures r.userTopic == s.userTopic && r.idea == s.idea
  {
    if AnyBlank(problem, impact, skills, platform) then s
    else
      var prompt := Prompt(s.userTopic, problem, impact, skills, platform);
      s.(prompt := Some(prompt), step := 2)
  }

  /** Lines 76-79: step 2 is rendered; the idea is generated only while
      none is stored. */
  function AfterRender(s: Session, generate: string -> string): (r: Session)
    requires s.step == 2 && CanRender(s)
    ensures r.step == 2 && r.userTopic == s.userTopic && r.prompt == s.prompt
    ensures r.idea == if s.idea == "" then generate(s.prompt.value) else s.idea
  {
    if s.idea == "" then s.(idea := generate(s.prompt.value)) else s
  }

  /** Lines 85-88: "Generate Another Idea" clears the topic and the idea
      and returns to step 0; the stored prompt is left as it was. */
  function AfterReset(s: Session): (r: Session)
    requires s.step == 2
    ensures r.step == 0 && r.userTopic == "" && r.idea == ""
    ensures r.prompt == s.prompt
  {
    s.(step := 0, userTopic := "", idea := "")
  }

  /** What the user did during one rerun of the page. `Rerender` is a rerun
      with no form submitted and no button pressed. */
  datatype Event =
    | Rerender
    | TopicForm(text: string)
    | DetailsForm(problem: string, impact: string, skills: string, platform: string)
    | AnotherIdea

  datatype Outcome = Outcome(next: Session, calls: nat)

  /** The step moves the wizard may make in one rerun. */
  predicate StepMove(from: int, to: int) {
    to == from || (from == 0 && to == 1) || (from == 1 && to == 2) || (from == 2 && to == 0)
  }

  /** Lines 42-88: one execution of `main`. Only the branch of the current
      step runs; `calls` is how many times the generator was called. */
  function Run(s: Session, ev: Event, generate: string -> string): (o: Outcome)
    requires CanRender(s)
    ensures StepMove(s.step, o.next.step)
    ensures o.calls == if Generates(s) then 1 else 0
    ensures Valid(s) ==> Valid(o.next)
  {
    if s.step == 0 then
      Outcome(if ev.TopicForm? then AfterTopic(s, ev.text) else s, 0)
    else if s.step == 1 then
      var r := if ev.DetailsForm? then AfterDetails(s, ev.problem, ev.impact, ev.skills, ev.platform) else s;
      if r.step == 2 then
        PromptNamesTopic(s.userTopic, ev.problem, ev.impact, ev.skills, ev.platform);
        Outcome(r, 0)
      else
        Outcome(r, 0)
    else if s.step == 2 then
      var r := AfterRender(s, generate);
      Outcome(if ev.AnotherIdea? then AfterReset(r) else r, if s.idea == "" then 1 else 0)
    else
      Outcome(s, 0)
  }

  /** The rerun of line 34-39 keeps the session as it is, so running `main`
      on the stored keys is `Run` on the session itself. */
  lemma RerunKeepsStoredState(s: Session, ev: Event, generate: string -> string)
    requires Valid(s)
    ensures Valid(WithDefaults(Store(s)))
    ensures Run(WithDefaults(Store(s)), ev, generate) == Run(s, ev, generate)
  {
    DefaultsOnlyFillMissingKeys(s);
  }

  /** Each form acts only in its own step: submitting a form that the
      current step does not show changes nothing that a plain rerun
      would not. */
  lemma FormsActOnlyInTheirStep(s: Session, ev: Event, generate: string -> string)
    requires CanRender(s)
    requires (ev.TopicForm? && s.step != 0) || (ev.DetailsForm? && s.step != 1)
    ensures Run(s, ev, generate) == Run(s, Rerender, generate)
  {
  }

  /** Running `main` on a sequence of reruns. `entries` counts the moves
      from step 1 into step 2. */
  datatype Trace = Trace(last: Session, calls: nat, entries: nat)

  function Runs(s: Session, evs: seq<Event>, generate: string -> string): (t: Trace)
    requires Valid(s)
    ensures Valid(t.last)
    decreases |evs|
  {
    if evs == [] then Trace(s, 0, 0)
    else
      var o := Run(s, evs[0], generate);
      var t := Runs(o.next, evs[1..], generate);
      Trace(t.last, o.calls + t.calls, (if s.step == 1 && o.next.step == 2 then 1 else 0) + t.entries)
  }

  function Pending(s: Session): nat {
    if Generates(s) then 1 else 0
  }

  /** The idea is generated at most once per entry into step 2: re-renders
      reuse a stored idea. This needs the generator never to answer with the
      empty string (its error path answers "Error: ..."). */
  lemma {:induction false} AtMostOneGenerationPerEntry(s: Session, evs: seq<Event>, generate: string -> string)
    requires Valid(s)
    requires forall p :: generate(p) != ""
    ensures Runs(s, evs, generate).calls + Pending(Runs(s, evs, generate).last)
            <= Pending(s) + Runs(s, evs, generate).entries
    decreases |evs|
  {
    if evs != [] {
      var o := Run(s, evs[0], generate);
      AtMostOneGenerationPerEntry(o.next, evs[1..], generate);
      if s.step == 1 && o.next.step == 2 {
        assert Pending(o.next) <= 1;
      } else {
        assert o.calls + Pending(o.next) <= Pending(s);
      }
    }
  }

  /** Re-rendering step 2 never calls the generator twice in a row when it
      answered with some text. */
  lemma RenderIdempotent(s: Session, generate: string -> string)
    requires s.step == 2 && CanRender(s)
    requires s.idea == "" ==> generate(s.prompt.value) != ""
    ensures !Generates(AfterRender(s, generate))
    ensures AfterRender(AfterRender(s, generate), generate) == AfterRender(s, generate)
  {
  }

  /** An empty answer is not kept: every further re-render asks again. */
  lemma {:induction false} EmptyAnswerIsRequested(s: Session, evs: seq<Event>, generate: string -> string)
    requires Valid(s) && Generates(s)
    requires generate(s.prompt.value) == ""
    requires forall i :: 0 <= i < |evs| ==> evs[i].Rerender?
    ensures Runs(s, evs, generate).calls == |evs|
    ensures Runs(s, evs, generate).last == s
    decreases |evs|
  {
    if evs != [] {
      var o := Run(s, evs[0], generate);
      assert o.next == s;
      EmptyAnswerIsRequested(s, evs[1..], generate);
    }
  }

  /** The first leg of the round trip: a non-blank topic on a new session. */
  lemma TopicLeg(topic: string, rest: seq<Event>, generate: string -> string)
    requires !IsBlank(topic)
    ensures Valid(Session(1, Strip(topic), None, ""))
    ensures Runs(Session(0, "", None, ""), [TopicForm(topic)] + rest, generate)
            == Runs(Session(1, Strip(topic), None, ""), rest, generate)
  {
    assert ([TopicForm(topic)] + rest)[1..] == rest;
  }

  /** The second leg: four non-blank answers in step 1. */
  lemma DetailsLeg(t: string, problem: string, impact: string, skills: string, platform: string,
                   generate: string -> string)
    requires !AnyBlank(problem, impact, skills, platform)
    ensures Run(Session(1, t, None, ""), DetailsForm(problem, impact, skills, platform), generate)
            == Outcome(Session(2, t, Some(Prompt(t, problem, impact, skills, platform)), ""), 0)
  {
  }

  /** The last leg, in step 2: the rerun that renders the idea and draws
      the "Generate Another Idea" button, then the rerun in which that button
      was clicked. The generator is called once, in the first of the two. */
  lemma ResetLeg(t: string, p: string, generate: string -> string)
    requires Valid(Session(2, t, Some(p), "")) && generate(p) != ""
    ensures Runs(Session(2, t, Some(p), ""), [Rerender, AnotherIdea], generate)
            == Trace(Session(0, "", Some(p), ""), 1, 0)
  {
    var shown := Session(2, t, Some(p), generate(p));
    assert Run(Session(2, t, Some(p), ""), Rerender, generate) == Outcome(shown, 1);
    assert Run(shown, AnotherIdea, generate) == Outcome(Session(0, "", Some(p), ""), 0);
    assert [Rerender, AnotherIdea][1..] == [AnotherIdea] && [AnotherIdea][1..] == [];
  }

  /** The answers, the render and the reset, from step 1 with topic `t`. */
  lemma DetailsThenReset(t: string, problem: string, impact: string, skills: string, platform: string,
                         generate: string -> string)
    requires Valid(Session(1, t, None, "")) && !AnyBlank(problem, impact, skills, platform)
    requires generate(Prompt(t, problem, impact, skills, platform)) != ""
    ensures Runs(Session(1, t, None, ""), [DetailsForm(problem, impact, skills, platform), Rerender, AnotherIdea], generate)
            == Trace(Session(0, "", Some(Prompt(t, problem, impact, skills, platform)), ""), 1, 1)
  {
    var p := Prompt(t, problem, impact, skills, platform);
    var evs := [DetailsForm(problem, impact, skills, platform), Rerender, AnotherIdea];
    var s2 := Session(2, t, Some(p), "");
    DetailsLeg(t, problem, impact, skills, platform, generate);
    PromptNamesTopic(t, problem, impact, skills, platform);
    ResetLeg(t, p, generate);
    assert evs[0] == DetailsForm(problem, impact, skills, platform) && evs[1..] == [Rerender, AnotherIdea];
    var o := Run(Session(1, t, None, ""), evs[0], generate);
    assert o.next == s2 && o.calls == 0;
    var rest := Runs(s2, evs[1..], generate);
    assert rest == Trace(Session(0, "", Some(p), ""), 1, 0);
  }

  /** A full round trip through the wizard as a user clicks it. Each form
      takes effect in the rerun it submits, and the page of the new step is
      drawn by the next rerun: a topic, the rerun that shows the questions,
      four answers, the rerun that shows the idea and "Generate Another
      Idea" bring a new session back to step 0 with only the prompt left
      behind, after exactly one generator call. */
  lemma {:induction false} RoundTrip(topic: string, problem: string, impact: string, skills: string,
                                     platform: string, generate: string -> string)
    requires !IsBlank(topic) && !AnyBlank(problem, impact, skills, platform)
    requires generate(Prompt(Strip(topic), problem, impact, skills, platform)) != ""
    ensures var evs := [TopicForm(topic), Rerender, DetailsForm(problem, impact, skills, platform), Rerender, AnotherIdea];
            var t := Runs(Session(0, "", None, ""), evs, generate);
            && t.last == Session(0, "", Some(Prompt(Strip(topic), problem, impact, skills, platform)), "")
            && t.calls == 1 && t.entries == 1
  {
    var s1 := Session(1, Strip(topic), None, "");
    var rest := [DetailsForm(problem, impact, skills, platform), Rerender, AnotherIdea];
    TopicLeg(topic, [Rerender] + rest, generate);
    assert Run(s1, Rerender, generate) == Outcome(s1, 0);
    assert ([Rerender] + rest)[0] == Rerender && ([Rerender] + rest)[1..] == rest;
    DetailsThenReset(Strip(topic), problem, impact, skills, platform, generate);
    assert Runs(s1, [Rerender] + rest, generate) == Runs(s1, rest, generate);
    assert [TopicForm(topic)] + ([Rerender] + rest)
        == [TopicForm(topic), Rerender, DetailsForm(problem, impact, skills, platform), Rerender, AnotherIdea];
  }

  // ---------------------------------------------------------------------
  // The session object
  // ---------------------------------------------------------------------

  /** `st.session_state` for one browser session. */
  class SessionState {
    var step: int
    var userTopic: string
    var prompt: Option<string>
    var idea: string
    /** How many times the generator has been called in this session. */
    ghost var generatorCalls: nat

    function State(): Session
      reads this
    {
      Session(step, userTopic, prompt, idea)
    }

    /** The first run of a session: every key is missing, so every default
        is written. */
    constructor ()
      ensures State() == WithDefaults(NoKeys) && Valid(State())
      ensures generatorCalls == 0
    {
      step := 0;
      userTopic := "";
      idea := "";
      prompt := None;
      generatorCalls := 0;
    }

    method SubmitTopic(initialInput: string)
      requires step == 0
      modifies this
      ensures State() == AfterTopic(old(State()), initialInput)
      ensures generatorCalls == old(generatorCalls)
    {
      var topic := Strip(initialInput);
      if topic != "" {
        userTopic := topic;
        step := 1;
      }
    }

    method SubmitDetails(problem: string, impact: string, skills: string, platform: string)
      requires step == 1
      modifies this
      ensures State() == AfterDetails(old(State()), problem, impact, skills, platform)
      ensures generatorCalls == old(generatorCalls)
    {
      ghost var s := State();
      if !AnyBlank(problem, impact, skills, platform) {
        prompt := Some(Prompt(userTopic, problem, impact, skills, platform));
        step := 2;
        assert State() == s.(prompt := prompt, step := 2);
        assert AfterDetails(s, problem, impact, skills, platform) == s.(prompt := prompt, step := 2);
      } else {
        assert AfterDetails(s, problem, impact, skills, platform) == s;
      }
    }

    /** Renders step 2 and returns the idea shown. */
    method RenderResult(generate: string -> string) returns (shown: string)
      requires step == 2 && CanRender(State())
      modifies this
      ensures State() == AfterRender(old(State()), generate)
      ensures generatorCalls == old(generatorCalls) + (if Generates(old(State())) then 1 else 0)
      ensures shown == idea
    {
      if idea == "" {
        idea := generate(prompt.value);
        generatorCalls := generatorCalls + 1;
      }
      shown := idea;
    }

    method Reset()
      requires step == 2
      modifies this
      ensures State() == AfterReset(old(State()))
      ensures generatorCalls == old(generatorCalls)
    {
      step := 0;
      userTopic := "";
      idea := "";
    }

    /** One execution of `main` on this session. */
    method Rerun(ev: Event, generate: string -> string)
      requires CanRender(State())
      modifies this
      ensures State() == Run(old(State()), ev, generate).next
      ensures generatorCalls == old(generatorCalls) + Run(old(State()), ev, generate).calls
    {
      if step == 0 {
        if ev.TopicForm? {
          SubmitTopic(ev.text);
        }
      } else if step == 1 {
        if ev.DetailsForm? {
          SubmitDetails(ev.problem, ev.impact, ev.skills, ev.platform);
        }
      } else if step == 2 {
        var shown := RenderResult(generate);
        if ev.AnotherIdea? {
          Reset();
        }
      }
    }
  }
}
