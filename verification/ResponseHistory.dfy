/** What the handlers are called with, by the events of the stream alone: every call of every run is told by a
    definition that looks at what was read before it.
 */
module ResponseHistory {
  import opened Wrappers
  import opened Common
  import opened AudioVetting

  // ---- What the stream has said -----------------------------------------------------------------------

  /** The stream is still read: it did not fail, and nobody stopped the session. */
  predicate IsRead(es: seq<Event>) {
    TerminalException !in es && StopRequested !in es
  }

  /** The role under which the block of this name was last started. */
  ghost function RoleOf(es: seq<Event>, name: string): Option<Role> {
    if es == [] then None else
    var e := es[|es| - 1];
    if e.ContentStart? && e.name == Some(name) then Some(e.role) else RoleOf(es[..|es| - 1], name)
  }

  /** A block of this name has ended since the last completion. */
  ghost predicate HasEnded(es: seq<Event>, name: string) {
    if es == [] then false else
    match es[|es| - 1]
    case CompletionEnd(_) => false
    case ContentEnd(ended, _, _, _) => ended == Some(name) || HasEnded(es[..|es| - 1], name)
    case _ => HasEnded(es[..|es| - 1], name)
  }

  /** A block whose name is known as the assistant's has ended since the last completion. */
  ghost predicate AssistantEnded(es: seq<Event>) {
    if es == [] then false else
    var before := es[..|es| - 1];
    match es[|es| - 1]
    case CompletionEnd(_) => false
    case ContentEnd(ended, _, _, _) =>
      AssistantEnded(before) || (ended.Some? && RoleOf(before, ended.value) == Some(ASSISTANT))
    case _ => AssistantEnded(before)
  }

  /** The role of the block that started last, while no block has ended and no completion since; and whether the
      assistant's block had ended before it. */
  ghost function Inside(es: seq<Event>): Option<(Role, bool)> {
    if es == [] then None else
    match es[|es| - 1]
    case ContentStart(role, _, _, _, _) => Some((role, AssistantEnded(es[..|es| - 1])))
    case ContentEnd(_, _, _, _) => None
    case CompletionEnd(_) => None
    case _ => Inside(es[..|es| - 1])
  }

  /** The stage of the block that started last, where it is the assistant's. */
  ghost function LastStage(es: seq<Event>): Stage {
    if es == [] then NoStage else
    match es[|es| - 1]
    case ContentStart(role, _, _, _, stage) => if role == ASSISTANT then stage else NoStage
    case _ => LastStage(es[..|es| - 1])
  }

  // ---- What a text is taken for -----------------------------------------------------------------------

  /** The text is under the wrong role: its block has ended, or it is in a user's block that began after the
      assistant's had ended, or it says user, without a name, in an assistant's block. */
  ghost predicate IsMisplaced(es: seq<Event>, role: Role, name: Option<string>) {
    || (name.Some? && HasEnded(es, name.value))
    || Inside(es) == Some((USER, true))
    || (name.None? && role == USER && Inside(es).Some? && Inside(es).value.0 == ASSISTANT)
  }

  ghost function Speaker(es: seq<Event>, role: Role, name: Option<string>): Role {
    if name.Some? && RoleOf(es, name.value).Some? then RoleOf(es, name.value).value else role
  }

  /** The block a text is in, if it says so and that is known. */
  ghost function Holding(es: seq<Event>, id: Option<string>): Option<Block> {
    if id.Some? then Known(es, id.value) else None
  }

  ghost function StageAt(es: seq<Event>, id: Option<string>): Stage {
    match Holding(es, id) case Some(block) => block.stage case None => LastStage(es)
  }

  /** A preview or a final text of the assistant; without a known block, of the block that started last. */
  ghost predicate MayShow(es: seq<Event>, id: Option<string>) {
    && (Holding(es, id).Some? ==> Holding(es, id).value.role == ASSISTANT)
    && (StageAt(es, id) == FINAL || StageAt(es, id) == SPECULATIVE)
  }

  // ---- The calls --------------------------------------------------------------------------------------

  ghost function UserPart(call: Option<Call>): seq<string> {
    match call case Some(UserText(content)) => [content] case _ => []
  }

  ghost function AssistantPart(call: Option<Call>): seq<string> {
    match call case Some(AssistantText(content, _, _)) => [content] case _ => []
  }

  ghost function CallPart(call: Option<Call>): seq<Call> {
    match call case Some(made) => [made] case None => []
  }

  /** The text the assistant last had passed on, over all completions. */
  ghost function LastShown(cfg: Config, es: seq<Event>): string
    decreases |es|, 0
  {
    if es == [] then "" else
    var before := es[..|es| - 1];
    match LastCall(cfg, before, es[|es| - 1])
    case Some(AssistantText(content, _, _)) => content
    case _ => LastShown(cfg, before)
  }

  /** The user's and the assistant's texts passed on since the last completion. */
  ghost function UserTexts(cfg: Config, es: seq<Event>): seq<string>
    decreases |es|, 0
  {
    if es == [] then [] else
    var before := es[..|es| - 1];
    if es[|es| - 1].CompletionEnd? then [] else
    match LastCall(cfg, before, es[|es| - 1])
    case Some(UserText(content)) => UserTexts(cfg, before) + [content]
    case _ => UserTexts(cfg, before)
  }

  ghost function AssistantTexts(cfg: Config, es: seq<Event>): seq<string>
    decreases |es|, 0
  {
    if es == [] then [] else
    var before := es[..|es| - 1];
    if es[|es| - 1].CompletionEnd? then [] else
    match LastCall(cfg, before, es[|es| - 1])
    case Some(AssistantText(content, _, _)) => AssistantTexts(cfg, before) + [content]
    case _ => AssistantTexts(cfg, before)
  }

  /** The call that a text leads to, if any. */
  function CallFor(cfg: Config, content: string, misplaced: bool, speaker: Role, lastShown: string, mayShow: bool,
                   stage: Stage, inside: bool): Option<Call>
  {
    if misplaced then None
    else if cfg.isStatus(content) then Some(Interrupted)
    else if speaker == USER && cfg.echoes(content, lastShown) then Some(EchoDetected(content))
    else if speaker == USER then Some(UserText(content))
    else if speaker == ASSISTANT && mayShow && cfg.sanitize(content) != ""
    then Some(AssistantText(cfg.sanitize(content), stage, inside))
    else None
  }

  ghost function TextCall(cfg: Config, es: seq<Event>, e: Event): Option<Call>
    requires e.TextOutput?
    decreases |es|, 1
  {
    CallFor(cfg, e.content, IsMisplaced(es, e.role, e.name), Speaker(es, e.role, e.name), LastShown(cfg, es),
            MayShow(es, e.id), StageAt(es, e.id), CountsAsOpen(es))
  }

  /** The last call that an event leads to, if any. */
  ghost function LastCall(cfg: Config, es: seq<Event>, e: Event): Option<Call>
    decreases |es|, 2
  {
    match e
    case ContentStart(role, _, _, kind, _) =>
      if role == ASSISTANT && kind == AUDIO then Some(AudioBlockBegins) else None
    case ContentEnd(_, id, reason, _) =>
      if Holding(es, id) == Some(Block(ASSISTANT, TEXT, FINAL)) && (reason == END_TURN || reason == INTERRUPTED)
      then Some(TurnComplete(reason == INTERRUPTED)) else None
    case TextOutput(_, _, _, _) => TextCall(cfg, es, e)
    case AudioOutput => Some(AssistantAudio(IsVetted(cfg, es)))
    case CompletionEnd(interrupted) => Some(TurnComplete(interrupted))
    case TerminalException => Some(Failed)
    case StopRequested => None
  }

  /** A preview text for the audio block that began last has been passed on. */
  ghost predicate IsVetted(cfg: Config, es: seq<Event>)
    decreases |es|, 1
  {
    HasText(Calls(cfg, es), |Calls(cfg, es)|, Begun(Calls(cfg, es), |Calls(cfg, es)|))
  }

  ghost predicate Covers(cfg: Config, assistant: seq<string>, text: string) {
    exists i :: 0 <= i < |assistant| && cfg.isPart(text, assistant[i])
  }

  /** The user's texts that the assistant's cover one by one. */
  ghost function Covered(cfg: Config, user: seq<string>, assistant: seq<string>): seq<string> {
    if user == [] then [] else
    var last := user[|user| - 1];
    Covered(cfg, user[..|user| - 1], assistant) + if Covers(cfg, assistant, last) then [last] else []
  }

  /** What the end of a completion takes back: all the user's texts if they are covered together. */
  ghost function Retracted(cfg: Config, user: seq<string>, assistant: seq<string>): seq<string> {
    if user != [] && Covers(cfg, assistant, Join(user)) then user else Covered(cfg, user, assistant)
  }

  ghost function Retraction(cfg: Config, es: seq<Event>, e: Event): seq<Call>
    decreases |es|, 1
  {
    var texts := Retracted(cfg, UserTexts(cfg, es), AssistantTexts(cfg, es));
    if e.CompletionEnd? && texts != [] then [UserTextRetraction(texts)] else []
  }

  /** All calls. */
  ghost function Calls(cfg: Config, es: seq<Event>): seq<Call>
    decreases |es|, 0
  {
    if es == [] then [] else
    var (before, e) := (es[..|es| - 1], es[|es| - 1]);
    if !IsRead(before) then Calls(cfg, before) else
    Calls(cfg, before) + Retraction(cfg, before, e) + CallPart(LastCall(cfg, before, e))
  }

  // ---- The stream is read as told ---------------------------------------------------------------------

  ghost predicate NameIsTold(c: Checks, es: seq<Event>, name: string) {
    && (name in c.closed <==> HasEnded(es, name))
    && RoleOf(es, name) == if name in c.roles then Some(c.roles[name]) else None
  }

  ghost predicate FlagsAreTold(c: Checks, es: seq<Event>) {
    && (c.assistantClosed <==> AssistantEnded(es))
    && (c.misfire <==> Inside(es) == Some((USER, true)))
    && (c.insideAssistant <==> Inside(es).Some? && Inside(es).value.0 == ASSISTANT)
  }

  ghost predicate ChecksAreTold(c: Checks, es: seq<Event>) {
    FlagsAreTold(c, es) && forall name :: NameIsTold(c, es, name)
  }

  ghost predicate BlocksAreTold(s: State, es: seq<Event>) {
    && ReadsTheEvents(es, s)
    && s.stage == LastStage(es) && (s.shown <==> LastStage(es) == FINAL || LastStage(es) == SPECULATIVE)
  }

  ghost predicate TextsAreTold(cfg: Config, s: State, es: seq<Event>) {
    && s.texts.user == UserTexts(cfg, es) && s.texts.assistant == AssistantTexts(cfg, es)
    && s.lastAssistantText == LastShown(cfg, es)
  }

  ghost predicate IsTold(cfg: Config, s: State, es: seq<Event>) {
    && ChecksAreTold(s.checks, es) && BlocksAreTold(s, es) && TextsAreTold(cfg, s, es)
    && s.calls == Calls(cfg, es) && Inv(s.vetting, s.calls)
  }

  lemma StepTellsName(cfg: Config, s: State, es: seq<Event>, e: Event, name: string)
    requires NameIsTold(s.checks, es, name) && s.running
    ensures NameIsTold(Step(cfg, s, e).checks, es + [e], name)
  {
    assert (es + [e])[..|es|] == es;
  }

  lemma StartTellsFlags(c: Checks, es: seq<Event>, e: Event)
    requires FlagsAreTold(c, es) && e.ContentStart?
    ensures FlagsAreTold(ChecksAtStart(c, e.role, e.name), es + [e])
  {
    assert (es + [e])[..|es|] == es;
  }

  lemma EndTellsFlags(c: Checks, es: seq<Event>, e: Event)
    requires FlagsAreTold(c, es) && e.ContentEnd? && (e.name.Some? ==> NameIsTold(c, es, e.name.value))
    ensures FlagsAreTold(ChecksAtEnd(c, e.name), es + [e])
  {
    assert (es + [e])[..|es|] == es;
  }

  lemma OthersTellFlags(cfg: Config, s: State, es: seq<Event>, e: Event)
    requires FlagsAreTold(s.checks, es) && s.running && !e.ContentStart? && !e.ContentEnd?
    ensures FlagsAreTold(Step(cfg, s, e).checks, es + [e])
  {
    assert (es + [e])[..|es|] == es;
    assert !e.CompletionEnd? ==> Step(cfg, s, e).checks == s.checks;
  }

  lemma StepTellsFlags(cfg: Config, s: State, es: seq<Event>, e: Event)
    requires FlagsAreTold(s.checks, es) && s.running
    requires e.ContentEnd? && e.name.Some? ==> NameIsTold(s.checks, es, e.name.value)
    ensures FlagsAreTold(Step(cfg, s, e).checks, es + [e])
  {
    if e.ContentStart? {
      StartTellsFlags(s.checks, es, e);
    } else if e.ContentEnd? {
      EndTellsFlags(s.checks, es, e);
    } else {
      OthersTellFlags(cfg, s, es, e);
    }
  }

  lemma StepTellsChecks(cfg: Config, s: State, es: seq<Event>, e: Event)
    requires ChecksAreTold(s.checks, es) && s.running
    ensures ChecksAreTold(Step(cfg, s, e).checks, es + [e])
  {
    StepTellsFlags(cfg, s, es, e);
    forall name ensures NameIsTold(Step(cfg, s, e).checks, es + [e], name) {
      StepTellsName(cfg, s, es, e, name);
    }
  }

  lemma StepTellsBlocks(cfg: Config, s: State, es: seq<Event>, e: Event)
    requires BlocksAreTold(s, es) && s.running && !e.TerminalException? && !e.StopRequested?
    ensures BlocksAreTold(Step(cfg, s, e), es + [e])
  {
    assert (es + [e])[..|es|] == es;
    StepReadsTheEvents(cfg, es, s, e);
  }

  lemma {:induction false} CoveredFromTheFront(cfg: Config, user: seq<string>, assistant: seq<string>)
    requires user != []
    ensures Covered(cfg, user, assistant) ==
            (if Covers(cfg, assistant, user[0]) then [user[0]] else []) + Covered(cfg, user[1..], assistant)
  {
    if |user| > 1 {
      var (before, last) := (user[..|user| - 1], user[|user| - 1]);
      CoveredFromTheFront(cfg, before, assistant);
      assert user[1..][..|user| - 2] == before[1..] && user[1..][|user| - 2] == last;
    } else {
      assert user == [user[0]] && user[1..] == [] && user[..0] == [];
    }
  }

  lemma {:induction false} CoveredIsPart(cfg: Config, user: seq<string>, assistant: seq<string>)
    ensures Covered(cfg, user, assistant) == PartsOfSome(cfg, user, assistant)
  {
    if user != [] {
      CoveredFromTheFront(cfg, user, assistant);
      CoveredIsPart(cfg, user[1..], assistant);
    }
  }

  lemma {:induction false} NothingCovers(cfg: Config, user: seq<string>)
    ensures Covered(cfg, user, []) == []
  {
    if user != [] {
      NothingCovers(cfg, user[..|user| - 1]);
    }
  }

  lemma RetractionIsTold(cfg: Config, texts: TurnTexts)
    ensures Misfired(cfg, texts) == Retracted(cfg, texts.user, texts.assistant)
  {
    CoveredIsPart(cfg, texts.user, texts.assistant);
    NothingCovers(cfg, texts.user);
  }

  lemma MisplacedIsTold(s: State, es: seq<Event>, role: Role, name: Option<string>)
    requires ChecksAreTold(s.checks, es)
    ensures Misfires(s.checks, role, name) <==> IsMisplaced(es, role, name)
    ensures ResolvedRole(s.checks, role, name) == Speaker(es, role, name)
  {
    assert name.Some? ==> NameIsTold(s.checks, es, name.value);
  }

  lemma ShowingIsTold(s: State, es: seq<Event>, id: Option<string>)
    requires BlocksAreTold(s, es)
    ensures ShowsText(s, id) <==> MayShow(es, id)
    ensures TextStage(s, id) == StageAt(es, id)
  {
    assert id.Some? ==> BlockOf(s.blocks, id) == Known(es, id.value);
  }

  /** The call made, and the texts noted. */
  ghost predicate TellsCall(s: State, t: State, call: Option<Call>) {
    && t.calls == s.calls + CallPart(call)
    && t.texts == TurnTexts(s.texts.user + UserPart(call), s.texts.assistant + AssistantPart(call))
    && t.lastAssistantText == (if AssistantPart(call) != [] then AssistantPart(call)[0] else s.lastAssistantText)
  }

  lemma PassingOnTells(s: State, text: string, stage: Stage)
    ensures TellsCall(s, OnUserText(s, text), Some(UserText(text)))
    ensures TellsCall(s, OnAssistantText(s, text, stage), Some(AssistantText(text, stage, s.vetting.inside)))
  {
  }

  lemma OtherwiseTells(s: State, text: string)
    ensures TellsCall(s, s, None) && TellsCall(s, Called(s, Interrupted), Some(Interrupted))
    ensures TellsCall(s, Called(s, EchoDetected(text)), Some(EchoDetected(text)))
  {
  }

  lemma TextFollows(cfg: Config, s: State, role: Role, name: Option<string>, id: Option<string>, content: string)
    ensures var call := CallFor(cfg, content, Misfires(s.checks, role, name), ResolvedRole(s.checks, role, name),
                                s.lastAssistantText, ShowsText(s, id), TextStage(s, id), s.vetting.inside);
            TellsCall(s, OnTextOutput(cfg, s, role, name, id, content), call)
  {
    PassingOnTells(s, content, TextStage(s, id));
    PassingOnTells(s, cfg.sanitize(content), TextStage(s, id));
    OtherwiseTells(s, content);
  }

  lemma TextIsTold(cfg: Config, s: State, es: seq<Event>, e: Event)
    requires e.TextOutput? && IsTold(cfg, s, es)
    ensures TellsCall(s, OnTextOutput(cfg, s, e.role, e.name, e.id, e.content), TextCall(cfg, es, e))
  {
    MisplacedIsTold(s, es, e.role, e.name);
    ShowingIsTold(s, es, e.id);
    TextFollows(cfg, s, e.role, e.name, e.id, e.content);
  }

  lemma OtherIsTold(cfg: Config, s: State, es: seq<Event>, e: Event)
    requires !e.TextOutput? && !e.CompletionEnd? && IsTold(cfg, s, es) && s.running
    ensures TellsCall(s, Step(cfg, s, e), LastCall(cfg, es, e))
  {
    assert e.ContentEnd? && e.id.Some? ==> BlockOf(s.blocks, e.id) == Known(es, e.id.value);
  }

  lemma CompletionIsTold(cfg: Config, s: State, es: seq<Event>, interrupted: bool)
    requires IsTold(cfg, s, es)
    ensures var t := OnCompletionEnd(cfg, s, interrupted);
            && t.calls == s.calls + Retraction(cfg, es, CompletionEnd(interrupted)) + [TurnComplete(interrupted)]
            && t.texts == TurnTexts([], []) && t.lastAssistantText == s.lastAssistantText
  {
    RetractionIsTold(cfg, s.texts);
  }

  lemma ReadingOn(es: seq<Event>, e: Event)
    ensures IsRead(es + [e]) <==> IsRead(es) && e != TerminalException && e != StopRequested
  {
  }

  lemma TextsAppended(cfg: Config, es: seq<Event>, e: Event)
    requires !e.CompletionEnd?
    ensures var call := LastCall(cfg, es, e);
            && UserTexts(cfg, es + [e]) == UserTexts(cfg, es) + UserPart(call)
            && AssistantTexts(cfg, es + [e]) == AssistantTexts(cfg, es) + AssistantPart(call)
            && LastShown(cfg, es + [e]) ==
               if AssistantPart(call) != [] then AssistantPart(call)[0] else LastShown(cfg, es)
  {
    assert (es + [e])[..|es|] == es;
  }

  lemma CallsAppended(cfg: Config, es: seq<Event>, e: Event)
    requires IsRead(es)
    ensures Calls(cfg, es + [e]) ==
            Calls(cfg, es) + Retraction(cfg, es, e) + CallPart(LastCall(cfg, es, e))
  {
    assert (es + [e])[..|es|] == es;
  }

  lemma StepTellsCalls(cfg: Config, s: State, es: seq<Event>, e: Event)
    requires IsTold(cfg, s, es) && s.running && IsRead(es)
    ensures TextsAreTold(cfg, Step(cfg, s, e), es + [e]) && Step(cfg, s, e).calls == Calls(cfg, es + [e])
  {
    CallsAppended(cfg, es, e);
    if e.CompletionEnd? {
      CompletionIsTold(cfg, s, es, e.interrupted);
      assert (es + [e])[..|es|] == es;
    } else {
      TextsAppended(cfg, es, e);
      assert Calls(cfg, es) + [] == Calls(cfg, es);
      if e.TextOutput? {
        TextIsTold(cfg, s, es, e);
      } else {
        OtherIsTold(cfg, s, es, e);
      }
    }
  }

  ghost predicate RunIsTold(cfg: Config, es: seq<Event>) {
    var s := Run(cfg, INITIAL, es);
    && s.calls == Calls(cfg, es)
    && (s.running <==> IsRead(es)) && (s.running ==> IsTold(cfg, s, es))
  }

  lemma ReadIsTold(cfg: Config, s: State, es: seq<Event>, e: Event)
    requires IsTold(cfg, s, es) && s.running && IsRead(es)
    ensures var t := Step(cfg, s, e);
            && t.calls == Calls(cfg, es + [e])
            && (e != TerminalException && e != StopRequested ==> IsTold(cfg, t, es + [e]))
  {
    StepTellsCalls(cfg, s, es, e);
    StepKeepsInv(cfg, s, e);
    StepTellsChecks(cfg, s, es, e);
    if e != TerminalException && e != StopRequested {
      StepTellsBlocks(cfg, s, es, e);
    }
  }

  lemma NothingMore(cfg: Config, es: seq<Event>, e: Event)
    requires !IsRead(es)
    ensures Calls(cfg, es + [e]) == Calls(cfg, es)
  {
    assert (es + [e])[..|es|] == es;
  }

  lemma StepRunsOn(cfg: Config, s: State, e: Event)
    ensures Step(cfg, s, e).running <==> s.running && e != TerminalException && e != StopRequested
  {
  }

  lemma StepIsTold(cfg: Config, es: seq<Event>, e: Event)
    requires RunIsTold(cfg, es)
    ensures RunIsTold(cfg, es + [e])
  {
    var s := Run(cfg, INITIAL, es);
    RunAppends(cfg, INITIAL, es, e);
    ReadingOn(es, e);
    StepRunsOn(cfg, s, e);
    if s.running {
      ReadIsTold(cfg, s, es, e);
    } else {
      NothingMore(cfg, es, e);
    }
  }

  /** In every run the handlers are called exactly as the events say, in order. */
  lemma {:induction false} CallsAreTold(cfg: Config, es: seq<Event>)
    ensures RunIsTold(cfg, es)
  {
    if es != [] {
      var (before, e) := (es[..|es| - 1], es[|es| - 1]);
      CallsAreTold(cfg, before);
      StepIsTold(cfg, before, e);
      assert before + [e] == es;
    }
  }
}
