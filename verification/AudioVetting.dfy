/** What of Nova Sonic's response stream reaches the handlers, and which audio counts as vetted: a new
    preview (SPECULATIVE) text went through the handler that judges texts. The state keeps the calls made
    to the handlers, so what "vetted" means can be said against all of them. The text heuristics and the
    parsing of events are parameters; an absent or empty name or id of a block is `None`.
 */
module AudioVetting {
  import opened Wrappers
  import opened Common

  datatype Role = USER | ASSISTANT | OtherRole

  datatype BlockType = TEXT | AUDIO | OtherType

  datatype Stage = SPECULATIVE | FINAL | OtherStage | NoStage

  datatype StopReason = END_TURN | INTERRUPTED | OtherReason

  /** Whether a text is a status string of the model, whether it repeats the assistant's last text, what is
      left of an assistant's text without leaked role labels, and whether a user's text is part of an
      assistant's text of the same turn. */
  datatype Config = Config(
    isStatus: string -> bool, echoes: (string, string) -> bool, sanitize: string -> string,
    isPart: (string, string) -> bool)

  datatype Block = Block(role: Role, kind: BlockType, stage: Stage)

  /** What the stream delivers, and the session being stopped from outside. An output without audio is no
      event; a stream that throws is one that ends with a terminal exception. `of` is the place in the stream
      where the block that ends was started, which nothing in the event has to say. */
  datatype Event =
    | ContentStart(role: Role, name: Option<string>, id: Option<string>, kind: BlockType, stage: Stage)
    | ContentEnd(name: Option<string>, id: Option<string>, reason: StopReason, of: nat)
    | TextOutput(role: Role, name: Option<string>, id: Option<string>, content: string)
    | AudioOutput
    | CompletionEnd(interrupted: bool)
    | TerminalException
    | StopRequested

  /** A call of a handler, or the beginning of an audio block. `inside` says that an audio block counted as
      open. */
  datatype Call =
    | UserText(content: string)
    | AssistantText(content: string, stage: Stage, inside: bool)
    | AssistantAudio(vetted: bool)
    | TurnComplete(interrupted: bool)
    | Interrupted
    | EchoDetected(content: string)
    | UserTextRetraction(texts: seq<string>)
    | Failed
    | AudioBlockBegins

  /** What the checks for texts under the wrong role know. */
  datatype Checks = Checks(
    roles: map<string, Role>, closed: set<string>, assistantClosed: bool, misfire: bool, insideAssistant: bool)

  /** The texts passed on since the last completion ended. */
  datatype TurnTexts = TurnTexts(user: seq<string>, assistant: seq<string>)

  /** The texts counted, the count when the last audio block began, and that block. */
  datatype Vetting = Vetting(textSeq: nat, seqAtAudioStart: nat, inside: bool, vetted: bool)

  /** `shown` and `stage` belong to the block that opened last, `blocks` are the open blocks by id. */
  datatype State = State(
    running: bool, checks: Checks, texts: TurnTexts, lastAssistantText: string, shown: bool, stage: Stage,
    blocks: map<string, Block>, vetting: Vetting, calls: seq<Call>)

  const INITIAL :=
    State(true, Checks(map[], {}, false, false, false), TurnTexts([], []), "", false, NoStage, map[],
          Vetting(0, 0, false, false), [])

  // ---- What each event does ---------------------------------------------------------------------------

  predicate IsShown(stage: Stage) {
    stage == FINAL || stage == SPECULATIVE
  }

  function Called(s: State, call: Call): State {
    s.(calls := s.calls + [call])
  }

  /** The stage of a block is read only for the assistant's blocks. */
  function StageOf(role: Role, stage: Stage): Stage {
    if role == ASSISTANT then stage else NoStage
  }

  function ChecksAtStart(c: Checks, role: Role, name: Option<string>): Checks {
    Checks(if name.Some? then c.roles[name.value := role] else c.roles, c.closed, c.assistantClosed,
           role == USER && c.assistantClosed, role == ASSISTANT)
  }

  function BlocksAtStart(blocks: map<string, Block>, id: Option<string>, block: Block): map<string, Block> {
    if id.Some? then blocks[id.value := block] else blocks
  }

  function AudioBegins(v: Vetting): Vetting {
    Vetting(v.textSeq, v.textSeq, true, v.textSeq > v.seqAtAudioStart)
  }

  function OnContentStart(s: State, role: Role, name: Option<string>, id: Option<string>, kind: BlockType,
                          stage: Stage): State
  {
    var t := s.(checks := ChecksAtStart(s.checks, role, name), shown := IsShown(StageOf(role, stage)),
                stage := StageOf(role, stage),
                blocks := BlocksAtStart(s.blocks, id, Block(role, kind, StageOf(role, stage))));
    if role == ASSISTANT && kind == AUDIO then Called(t.(vetting := AudioBegins(s.vetting)), AudioBlockBegins) else t
  }

  function BlockOf(blocks: map<string, Block>, id: Option<string>): Option<Block> {
    if id.Some? && id.value in blocks then Some(blocks[id.value]) else None
  }

  predicate EndsTurn(ended: Option<Block>, reason: StopReason) {
    && ended.Some? && ended.value == Block(ASSISTANT, TEXT, FINAL)
    && (reason == END_TURN || reason == INTERRUPTED)
  }

  function ChecksAtEnd(c: Checks, name: Option<string>): Checks {
    Checks(c.roles, if name.Some? then c.closed + {name.value} else c.closed,
           c.assistantClosed || (name.Some? && name.value in c.roles && c.roles[name.value] == ASSISTANT),
           false, false)
  }

  function VettingAtEnd(v: Vetting, ended: Option<Block>): Vetting {
    if ended.Some? && ended.value.kind == AUDIO then v.(inside := false) else v
  }

  function OnContentEnd(s: State, name: Option<string>, id: Option<string>, reason: StopReason): State {
    var ended := BlockOf(s.blocks, id);
    var t := s.(blocks := if id.Some? then s.blocks - {id.value} else s.blocks,
                vetting := VettingAtEnd(s.vetting, ended), checks := ChecksAtEnd(s.checks, name));
    if EndsTurn(ended, reason) then Called(t, TurnComplete(reason == INTERRUPTED)) else t
  }

  /** A text in a closed block, in a user block after the assistant's, or said to be the user's without a
      block's name inside a block of the assistant. */
  predicate Misfires(c: Checks, role: Role, name: Option<string>) {
    || (name.Some? && name.value in c.closed)
    || c.misfire
    || (name.None? && role == USER && c.insideAssistant)
  }

  function ResolvedRole(c: Checks, role: Role, name: Option<string>): Role {
    if name.Some? && name.value in c.roles then c.roles[name.value] else role
  }

  function TextStage(s: State, id: Option<string>): Stage {
    var block := BlockOf(s.blocks, id);
    if block.Some? then block.value.stage else s.stage
  }

  /** A text is judged by its own block where that is known, otherwise by the block that opened last. */
  predicate ShowsText(s: State, id: Option<string>) {
    var block := BlockOf(s.blocks, id);
    if block.Some? then block.value.role == ASSISTANT && IsShown(block.value.stage) else s.shown
  }

  function TextPasses(v: Vetting, stage: Stage): Vetting {
    if stage != SPECULATIVE then v
    else if v.inside then Vetting(v.textSeq + 1, v.textSeq + 1, true, true)
    else v.(textSeq := v.textSeq + 1)
  }

  function OnAssistantText(s: State, text: string, stage: Stage): State {
    Called(s.(lastAssistantText := text, texts := s.texts.(assistant := s.texts.assistant + [text]),
              vetting := TextPasses(s.vetting, stage)),
           AssistantText(text, stage, s.vetting.inside))
  }

  function OnUserText(s: State, content: string): State {
    Called(s.(texts := s.texts.(user := s.texts.user + [content])), UserText(content))
  }

  function OnTextOutput(cfg: Config, s: State, role: Role, name: Option<string>, id: Option<string>,
                        content: string): State
  {
    var resolved := ResolvedRole(s.checks, role, name);
    if Misfires(s.checks, role, name) then s
    else if cfg.isStatus(content) then Called(s, Interrupted)
    else if resolved == USER && cfg.echoes(content, s.lastAssistantText) then Called(s, EchoDetected(content))
    else if resolved == USER then OnUserText(s, content)
    else if resolved == ASSISTANT && ShowsText(s, id) && cfg.sanitize(content) != ""
    then OnAssistantText(s, cfg.sanitize(content), TextStage(s, id))
    else s
  }

  predicate IsPartOfSome(cfg: Config, text: string, assistant: seq<string>) {
    exists i :: 0 <= i < |assistant| && cfg.isPart(text, assistant[i])
  }

  /** The user's texts that are part of a text of the assistant. */
  function PartsOfSome(cfg: Config, user: seq<string>, assistant: seq<string>): seq<string> {
    if user == [] then [] else
    (if IsPartOfSome(cfg, user[0], assistant) then [user[0]] else []) + PartsOfSome(cfg, user[1..], assistant)
  }

  /** The user's texts that were the assistant's: all of them if they are so together. */
  function Misfired(cfg: Config, texts: TurnTexts): seq<string> {
    if texts.user == [] || texts.assistant == [] then []
    else if IsPartOfSome(cfg, Join(texts.user), texts.assistant) then texts.user
    else PartsOfSome(cfg, texts.user, texts.assistant)
  }

  function Retracting(s: State, misfired: seq<string>): State {
    if misfired == [] then s else Called(s, UserTextRetraction(misfired))
  }

  function OnCompletionEnd(cfg: Config, s: State, interrupted: bool): State {
    var t := Retracting(s, Misfired(cfg, s.texts));
    Called(t.(checks := Checks(s.checks.roles, {}, false, false, false), texts := TurnTexts([], [])),
           TurnComplete(interrupted))
  }

  function Step(cfg: Config, s: State, e: Event): State {
    if !s.running then s else
    match e
    case ContentStart(role, name, id, kind, stage) => OnContentStart(s, role, name, id, kind, stage)
    case ContentEnd(name, id, reason, _) => OnContentEnd(s, name, id, reason)
    case TextOutput(role, name, id, content) => OnTextOutput(cfg, s, role, name, id, content)
    case AudioOutput => Called(s, AssistantAudio(s.vetting.vetted))
    case CompletionEnd(interrupted) => OnCompletionEnd(cfg, s, interrupted)
    case TerminalException => Called(s.(running := false), Failed)
    case StopRequested => s.(running := false)
  }

  function Run(cfg: Config, s: State, es: seq<Event>): State
    decreases |es|
  {
    if es == [] then s else Run(cfg, Step(cfg, s, es[0]), es[1..])
  }

  lemma {:induction false} RunAppends(cfg: Config, s: State, es: seq<Event>, e: Event)
    ensures Run(cfg, s, es + [e]) == Step(cfg, Run(cfg, s, es), e)
    decreases |es|
  {
    if es == [] {
      assert es + [e] == [e];
    } else {
      assert (es + [e])[1..] == es[1..] + [e];
      RunAppends(cfg, Step(cfg, s, es[0]), es[1..], e);
    }
  }

  /** After a terminal exception nothing more is read. */
  lemma {:induction false} StoppedReadsNothing(cfg: Config, s: State, es: seq<Event>)
    requires !s.running
    ensures Run(cfg, s, es) == s
    decreases |es|
  {
    if es != [] {
      StoppedReadsNothing(cfg, s, es[1..]);
    }
  }

  lemma {:induction false} RunSplits(cfg: Config, s: State, es: seq<Event>, fs: seq<Event>)
    ensures Run(cfg, s, es + fs) == Run(cfg, Run(cfg, s, es), fs)
    decreases |es|
  {
    if es == [] {
      assert es + fs == fs;
    } else {
      assert (es + fs)[1..] == es[1..] + fs;
      RunSplits(cfg, Step(cfg, s, es[0]), es[1..], fs);
    }
  }

  // ---- When an audio block counts as open -------------------------------------------------------------

  /** The block last started under the id and not ended since. */
  ghost function Known(es: seq<Event>, id: string): Option<Block> {
    if es == [] then None else
    var e := es[|es| - 1];
    if e.ContentStart? && e.id == Some(id) then Some(Block(e.role, e.kind, StageOf(e.role, e.stage)))
    else if e.ContentEnd? && e.id == Some(id) then None
    else Known(es[..|es| - 1], id)
  }

  predicate BeginsAudio(e: Event) {
    e.ContentStart? && e.role == ASSISTANT && e.kind == AUDIO
  }

  /** After these events, `e` ends a block that is known to be an audio block, whoever's it is. */
  ghost predicate EndsKnownAudio(es: seq<Event>, e: Event) {
    e.ContentEnd? && e.id.Some? && Known(es, e.id.value).Some? && Known(es, e.id.value).value.kind == AUDIO
  }

  /** An audio block of the assistant has begun, and no known audio block has ended since. */
  ghost predicate CountsAsOpen(es: seq<Event>) {
    if es == [] then false else
    var before := es[..|es| - 1];
    BeginsAudio(es[|es| - 1]) || (!EndsKnownAudio(before, es[|es| - 1]) && CountsAsOpen(before))
  }

  /** The place in the stream of the assistant's last audio block, while that block itself has not ended. */
  ghost function OpenBlock(es: seq<Event>): Option<nat> {
    if es == [] then None else
    var (before, e) := (es[..|es| - 1], es[|es| - 1]);
    if BeginsAudio(e) then Some(|before|)
    else if e.ContentEnd? && OpenBlock(before) == Some(e.of) then None
    else OpenBlock(before)
  }

  /** The flag and the map of blocks say what the events read so far say. */
  ghost predicate ReadsTheEvents(es: seq<Event>, s: State) {
    (s.vetting.inside <==> CountsAsOpen(es)) && forall id :: BlockOf(s.blocks, Some(id)) == Known(es, id)
  }

  lemma StepReadsBlock(cfg: Config, es: seq<Event>, s: State, e: Event, id: string)
    requires s.running && BlockOf(s.blocks, Some(id)) == Known(es, id)
    ensures Step(cfg, s, e).running ==> BlockOf(Step(cfg, s, e).blocks, Some(id)) == Known(es + [e], id)
  {
    assert (es + [e])[..|es|] == es;
  }

  lemma StepReadsOpenness(cfg: Config, es: seq<Event>, s: State, e: Event)
    requires s.running && (s.vetting.inside <==> CountsAsOpen(es))
    requires e.ContentEnd? && e.id.Some? ==> BlockOf(s.blocks, e.id) == Known(es, e.id.value)
    ensures Step(cfg, s, e).running ==> (Step(cfg, s, e).vetting.inside <==> CountsAsOpen(es + [e]))
  {
    assert (es + [e])[..|es|] == es;
  }

  lemma StepReadsTheEvents(cfg: Config, es: seq<Event>, s: State, e: Event)
    requires ReadsTheEvents(es, s) && s.running
    ensures Step(cfg, s, e).running ==> ReadsTheEvents(es + [e], Step(cfg, s, e))
  {
    assert e.ContentEnd? && e.id.Some? ==> BlockOf(s.blocks, e.id) == Known(es, e.id.value);
    StepReadsOpenness(cfg, es, s, e);
    forall id ensures Step(cfg, s, e).running ==> BlockOf(Step(cfg, s, e).blocks, Some(id)) == Known(es + [e], id) {
      StepReadsBlock(cfg, es, s, e, id);
    }
  }

  /** While the stream is read, an audio block counts as open exactly as the events say. */
  lemma {:induction false} OpennessIsRead(cfg: Config, es: seq<Event>)
    ensures var s := Run(cfg, INITIAL, es); s.running ==> ReadsTheEvents(es, s)
  {
    if es != [] {
      var (before, e) := (es[..|es| - 1], es[|es| - 1]);
      assert before + [e] == es;
      RunAppends(cfg, INITIAL, before, e);
      OpennessIsRead(cfg, before);
      if Run(cfg, INITIAL, before).running {
        StepReadsTheEvents(cfg, before, Run(cfg, INITIAL, before), e);
      }
    }
  }

  ghost predicate FollowsTheBlock(cfg: Config, es: seq<Event>) {
    var s := Run(cfg, INITIAL, es); s.running ==> (s.vetting.inside <==> OpenBlock(es).Some?)
  }

  /** With the block itself open: a known audio block ends, but another one; or the block itself, unnamed or
      under an id that stands for something else. */
  ghost predicate Strays(es: seq<Event>, e: Event) {
    e.ContentEnd? && OpenBlock(es).Some? && (EndsKnownAudio(es, e) <==> OpenBlock(es) != Some(e.of))
  }

  lemma FollowsUnlessItStrays(cfg: Config, es: seq<Event>, e: Event)
    requires FollowsTheBlock(cfg, es) && Run(cfg, INITIAL, es).running
    ensures FollowsTheBlock(cfg, es + [e]) <==> !Strays(es, e)
  {
    var more := es + [e];
    assert more[..|more| - 1] == es;
    RunAppends(cfg, INITIAL, es, e);
    OpennessIsRead(cfg, es);
    OpennessIsRead(cfg, more);
  }

  ghost predicate AlwaysFollows(cfg: Config, es: seq<Event>) {
    FollowsTheBlock(cfg, es) && (es == [] || AlwaysFollows(cfg, es[..|es| - 1]))
  }

  ghost predicate NeverStrays(cfg: Config, es: seq<Event>) {
    if es == [] then true else
    var before := es[..|es| - 1];
    NeverStrays(cfg, before) && (Run(cfg, INITIAL, before).running ==> !Strays(before, es[|es| - 1]))
  }

  /** What counts as open is the block itself, at every moment of a run, exactly if the run never strays. */
  lemma {:induction false} OpenIsTheBlockExactly(cfg: Config, es: seq<Event>)
    ensures AlwaysFollows(cfg, es) <==> NeverStrays(cfg, es)
  {
    if es != [] {
      var (before, e) := (es[..|es| - 1], es[|es| - 1]);
      assert before + [e] == es;
      OpenIsTheBlockExactly(cfg, before);
      RunAppends(cfg, INITIAL, before, e);
      if AlwaysFollows(cfg, before) && Run(cfg, INITIAL, before).running {
        FollowsUnlessItStrays(cfg, before, e);
      }
    }
  }

  /** An end without an id leaves the ended block open. */
  lemma UnnamedEndIsMissed(cfg: Config)
    ensures var es := [ContentStart(ASSISTANT, None, Some("a"), AUDIO, NoStage),
                       ContentEnd(None, None, OtherReason, 0)];
            Run(cfg, INITIAL, es).vetting.inside && OpenBlock(es) == None
  {
    var es := [ContentStart(ASSISTANT, None, Some("a"), AUDIO, NoStage), ContentEnd(None, None, OtherReason, 0)];
    assert es[..1] == [es[0]] && es[1..] == [es[1]];
    assert Run(cfg, INITIAL, es) == Step(cfg, Step(cfg, INITIAL, es[0]), es[1]);
  }

  /** The end of the user's audio closes the assistant's. */
  lemma OtherAudioClosesIt(cfg: Config)
    ensures var es := [ContentStart(ASSISTANT, None, Some("a"), AUDIO, NoStage),
                       ContentStart(USER, None, Some("u"), AUDIO, NoStage),
                       ContentEnd(None, Some("u"), OtherReason, 1)];
            !Run(cfg, INITIAL, es).vetting.inside && OpenBlock(es) == Some(0)
  {
    var es := [ContentStart(ASSISTANT, None, Some("a"), AUDIO, NoStage),
               ContentStart(USER, None, Some("u"), AUDIO, NoStage), ContentEnd(None, Some("u"), OtherReason, 1)];
    assert es[..2] == [es[0], es[1]] && es[..2][..1] == [es[0]] && es[1..] == [es[1], es[2]] && es[1..][1..] == [es[2]];
    assert Run(cfg, INITIAL, es) == Step(cfg, Step(cfg, Step(cfg, INITIAL, es[0]), es[1]), es[2]);
  }

  // ---- Which text vets which audio block --------------------------------------------------------------

  /** How many audio blocks began among the first `n` calls. The blocks are numbered from 1. */
  ghost function Begun(calls: seq<Call>, n: nat): nat
    requires n <= |calls|
  {
    if n == 0 then 0 else Begun(calls, n - 1) + if calls[n - 1].AudioBlockBegins? then 1 else 0
  }

  /** Call `c` is a preview text that vets audio block `k`: it came inside that block, or after the block
      before it began, while no audio block was open. */
  ghost predicate Vets(calls: seq<Call>, c: nat, k: nat)
    requires c < |calls|
  {
    && calls[c].AssistantText? && calls[c].stage == SPECULATIVE
    && k == Begun(calls, c) + if calls[c].inside then 0 else 1
  }

  ghost predicate HasText(calls: seq<Call>, n: nat, k: nat)
    requires n <= |calls|
  {
    exists c: nat :: c < n && Vets(calls, c, k)
  }

  ghost predicate AudioIsMarked(calls: seq<Call>, i: nat)
    requires i < |calls|
  {
    calls[i].AssistantAudio? ==> (calls[i].vetted <==> HasText(calls, i, Begun(calls, i)))
  }

  ghost predicate Inv(v: Vetting, calls: seq<Call>) {
    var n := |calls|;
    && v.seqAtAudioStart <= v.textSeq && (v.inside ==> v.seqAtAudioStart == v.textSeq)
    && (v.vetted <==> HasText(calls, n, Begun(calls, n)))
    && (v.textSeq > v.seqAtAudioStart <==> HasText(calls, n, Begun(calls, n) + 1))
    && (forall i: nat :: i < n ==> AudioIsMarked(calls, i))
    && forall i: nat :: i < n ==> Begun(calls, i) <= Begun(calls, n)
  }

  lemma {:induction false} BegunIsLocal(calls: seq<Call>, call: Call, n: nat)
    requires n <= |calls|
    ensures Begun(calls + [call], n) == Begun(calls, n)
  {
    if n > 0 {
      BegunIsLocal(calls, call, n - 1);
    }
  }

  lemma VetsIsLocal(calls: seq<Call>, call: Call, c: nat, k: nat)
    requires c < |calls|
    ensures Vets(calls + [call], c, k) <==> Vets(calls, c, k)
  {
    BegunIsLocal(calls, call, c);
  }

  /** Whether an earlier text vets a block does not depend on later calls. */
  lemma HasTextIsLocal(calls: seq<Call>, call: Call, n: nat, k: nat)
    requires n <= |calls|
    ensures HasText(calls + [call], n, k) <==> HasText(calls, n, k)
  {
    forall c: nat | c < n ensures Vets(calls + [call], c, k) <==> Vets(calls, c, k) {
      VetsIsLocal(calls, call, c, k);
    }
  }

  lemma MarksAreLocal(calls: seq<Call>, call: Call, i: nat)
    requires i < |calls|
    ensures AudioIsMarked(calls + [call], i) <==> AudioIsMarked(calls, i)
  {
    BegunIsLocal(calls, call, i);
    HasTextIsLocal(calls, call, i, Begun(calls, i));
  }

  /** A call adds at most itself to the texts that vet a block. */
  lemma HasTextAfter(calls: seq<Call>, call: Call, k: nat)
    ensures HasText(calls + [call], |calls| + 1, k) <==>
            HasText(calls, |calls|, k) || Vets(calls + [call], |calls|, k)
  {
    HasTextIsLocal(calls, call, |calls|, k);
    if HasText(calls + [call], |calls| + 1, k) {
      var c: nat :| c < |calls| + 1 && Vets(calls + [call], c, k);
    }
  }

  /** What one more call does to what is known about the texts. */
  lemma CallKeepsMarks(v: Vetting, before: seq<Call>, call: Call)
    requires Inv(v, before) && (call.AssistantAudio? ==> call.vetted == v.vetted)
    ensures var calls := before + [call];
            && (forall i: nat :: i < |calls| ==> AudioIsMarked(calls, i))
            && (forall i: nat :: i < |calls| ==> Begun(calls, i) <= Begun(calls, |calls|))
            && Begun(calls, |before|) == Begun(before, |before|)
            && Begun(calls, |calls|) == Begun(before, |before|) + if call.AudioBlockBegins? then 1 else 0
  {
    var calls := before + [call];
    var n := |before|;
    BegunIsLocal(before, call, n);
    forall i: nat | i < |calls| ensures AudioIsMarked(calls, i) && Begun(calls, i) <= Begun(calls, |calls|) {
      if i < n {
        MarksAreLocal(before, call, i);
        BegunIsLocal(before, call, i);
        assert AudioIsMarked(before, i);
      } else {
        HasTextIsLocal(before, call, n, Begun(before, n));
      }
    }
  }

  /** A call that is neither a preview text nor the beginning of an audio block. */
  lemma PlainCallKeepsInv(v: Vetting, calls: seq<Call>, call: Call)
    requires Inv(v, calls) && !call.AudioBlockBegins? && (call.AssistantText? ==> call.stage != SPECULATIVE)
    requires call.AssistantAudio? ==> call.vetted == v.vetted
    ensures Inv(v, calls + [call])
  {
    var k := Begun(calls, |calls|);
    CallKeepsMarks(v, calls, call);
    HasTextAfter(calls, call, k);
    HasTextAfter(calls, call, k + 1);
  }

  /** No text vets a block further ahead than the next one. */
  lemma NoTextAhead(v: Vetting, calls: seq<Call>)
    requires Inv(v, calls)
    ensures !HasText(calls, |calls|, Begun(calls, |calls|) + 2)
  {
    var k := Begun(calls, |calls|) + 2;
    forall c: nat | c < |calls| ensures !Vets(calls, c, k) {
      assert Begun(calls, c) <= Begun(calls, |calls|);
    }
  }

  lemma AudioBeginsKeepsInv(v: Vetting, calls: seq<Call>)
    requires Inv(v, calls)
    ensures Inv(AudioBegins(v), calls + [AudioBlockBegins])
  {
    var k := Begun(calls, |calls|);
    CallKeepsMarks(v, calls, AudioBlockBegins);
    HasTextAfter(calls, AudioBlockBegins, k + 1);
    HasTextAfter(calls, AudioBlockBegins, k + 2);
    NoTextAhead(v, calls);
  }

  lemma TextPassesKeepsInv(v: Vetting, calls: seq<Call>, text: string, stage: Stage)
    requires Inv(v, calls)
    ensures Inv(TextPasses(v, stage), calls + [AssistantText(text, stage, v.inside)])
  {
    var call := AssistantText(text, stage, v.inside);
    if stage != SPECULATIVE {
      PlainCallKeepsInv(v, calls, call);
    } else {
      var k := Begun(calls, |calls|);
      CallKeepsMarks(v, calls, call);
      HasTextAfter(calls, call, k);
      HasTextAfter(calls, call, k + 1);
    }
  }

  lemma ContentEndKeepsInv(s: State, name: Option<string>, id: Option<string>, reason: StopReason)
    requires Inv(s.vetting, s.calls)
    ensures var t := OnContentEnd(s, name, id, reason); Inv(t.vetting, t.calls)
  {
    PlainCallKeepsInv(s.vetting, s.calls, TurnComplete(reason == INTERRUPTED));
  }

  lemma TextOutputKeepsInv(cfg: Config, s: State, role: Role, name: Option<string>, id: Option<string>, content: string)
    requires Inv(s.vetting, s.calls)
    ensures var t := OnTextOutput(cfg, s, role, name, id, content); Inv(t.vetting, t.calls)
  {
    PlainCallKeepsInv(s.vetting, s.calls, Interrupted);
    PlainCallKeepsInv(s.vetting, s.calls, EchoDetected(content));
    PlainCallKeepsInv(s.vetting, s.calls, UserText(content));
    TextPassesKeepsInv(s.vetting, s.calls, cfg.sanitize(content), TextStage(s, id));
  }

  lemma CompletionEndKeepsInv(cfg: Config, s: State, interrupted: bool)
    requires Inv(s.vetting, s.calls)
    ensures var t := OnCompletionEnd(cfg, s, interrupted); Inv(t.vetting, t.calls)
  {
    var t := Retracting(s, Misfired(cfg, s.texts));
    PlainCallKeepsInv(s.vetting, s.calls, UserTextRetraction(Misfired(cfg, s.texts)));
    PlainCallKeepsInv(t.vetting, t.calls, TurnComplete(interrupted));
  }

  lemma StepKeepsInv(cfg: Config, s: State, e: Event)
    requires Inv(s.vetting, s.calls)
    ensures var t := Step(cfg, s, e); Inv(t.vetting, t.calls)
  {
    if e.ContentStart? {
      AudioBeginsKeepsInv(s.vetting, s.calls);
    } else if e.ContentEnd? {
      ContentEndKeepsInv(s, e.name, e.id, e.reason);
    } else if e.TextOutput? {
      TextOutputKeepsInv(cfg, s, e.role, e.name, e.id, e.content);
    } else if e.AudioOutput? {
      PlainCallKeepsInv(s.vetting, s.calls, AssistantAudio(s.vetting.vetted));
    } else if e.CompletionEnd? {
      CompletionEndKeepsInv(cfg, s, e.interrupted);
    } else {
      PlainCallKeepsInv(s.vetting, s.calls, Failed);
    }
  }

  lemma {:induction false} RunKeepsInv(cfg: Config, s: State, es: seq<Event>)
    requires Inv(s.vetting, s.calls)
    ensures var t := Run(cfg, s, es); Inv(t.vetting, t.calls)
    decreases |es|
  {
    if es != [] {
      StepKeepsInv(cfg, s, es[0]);
      RunKeepsInv(cfg, Step(cfg, s, es[0]), es[1..]);
    }
  }

  /** Call `c` was made for the text at place `i` of the stream, and is marked as the events before say. */
  ghost predicate IsMarkedAt(cfg: Config, es: seq<Event>, c: nat, i: nat)
    requires c < |Run(cfg, INITIAL, es).calls| && Run(cfg, INITIAL, es).calls[c].AssistantText?
  {
    && i < |es| && es[i].TextOutput? && |Run(cfg, INITIAL, es[..i]).calls| == c
    && (Run(cfg, INITIAL, es).calls[c].inside <==> CountsAsOpen(es[..i]))
  }

  lemma TextAddsOneCall(cfg: Config, s: State, e: Event)
    requires e.TextOutput?
    ensures var calls := OnTextOutput(cfg, s, e.role, e.name, e.id, e.content).calls;
            || calls == s.calls
            || exists call :: calls == s.calls + [call] && (call.AssistantText? ==> call.inside == s.vetting.inside)
  {
  }

  lemma CallsGrow(cfg: Config, s: State, e: Event)
    ensures s.calls <= Step(cfg, s, e).calls
    ensures forall c :: |s.calls| <= c < |Step(cfg, s, e).calls| && Step(cfg, s, e).calls[c].AssistantText? ==>
              c == |s.calls| && s.running && e.TextOutput? && Step(cfg, s, e).calls[c].inside == s.vetting.inside
  {
    if e.TextOutput? {
      TextAddsOneCall(cfg, s, e);
    } else if e.CompletionEnd? {
      assert s.calls <= OnCompletionEnd(cfg, s, e.interrupted).calls;
    }
  }

  lemma {:induction false} TextIsMarked(cfg: Config, es: seq<Event>, c: nat) returns (i: nat)
    requires c < |Run(cfg, INITIAL, es).calls| && Run(cfg, INITIAL, es).calls[c].AssistantText?
    ensures IsMarkedAt(cfg, es, c, i)
    decreases |es|
  {
    assert es != [];
    var (before, e) := (es[..|es| - 1], es[|es| - 1]);
    assert before + [e] == es;
    RunAppends(cfg, INITIAL, before, e);
    CallsGrow(cfg, Run(cfg, INITIAL, before), e);
    if c < |Run(cfg, INITIAL, before).calls| {
      i := TextIsMarked(cfg, before, c);
      assert before[..i] == es[..i];
    } else {
      i := |before|;
      OpennessIsRead(cfg, before);
    }
  }

  /** Audio is reported vetted exactly when a preview text for its block has been passed on before it; which
      block a text is for is decided by what the events before it say of open audio blocks. */
  lemma AudioIsVettedExactly(cfg: Config, es: seq<Event>, i: nat)
    requires i < |Run(cfg, INITIAL, es).calls| && Run(cfg, INITIAL, es).calls[i].AssistantAudio?
    ensures var calls := Run(cfg, INITIAL, es).calls;
            calls[i].vetted <==> HasText(calls, i, Begun(calls, i))
    ensures var calls := Run(cfg, INITIAL, es).calls;
            forall c: nat :: c < i && calls[c].AssistantText? ==> exists j: nat :: IsMarkedAt(cfg, es, c, j)
  {
    forall c: nat | c < i && Run(cfg, INITIAL, es).calls[c].AssistantText?
      ensures exists j: nat :: IsMarkedAt(cfg, es, c, j)
    {
      var j := TextIsMarked(cfg, es, c);
    }
    RunKeepsInv(cfg, INITIAL, es);
    assert AudioIsMarked(Run(cfg, INITIAL, es).calls, i);
  }

  /** The first text that vets the block. */
  ghost function FirstText(calls: seq<Call>, n: nat, k: nat): (c: nat)
    requires n <= |calls| && HasText(calls, n, k)
    ensures c < n && Vets(calls, c, k)
    ensures forall d: nat :: d < n && Vets(calls, d, k) ==> c <= d
  {
    if HasText(calls, n - 1, k) then FirstText(calls, n - 1, k) else n - 1
  }

  /** The audio blocks with vetted audio claim distinct preview texts, each passed on before all vetted
      audio of its block, and after the block before it began. */
  lemma VettingIsInjective(cfg: Config, es: seq<Event>) returns (claim: map<nat, nat>)
    ensures var calls := Run(cfg, INITIAL, es).calls;
            && (forall i: nat :: i < |calls| && calls[i] == AssistantAudio(true) ==>
                  Begun(calls, i) in claim && claim[Begun(calls, i)] < i)
            && (forall k :: k in claim ==>
                  claim[k] < |calls| && Vets(calls, claim[k], k) && k - 1 <= Begun(calls, claim[k]) <= k)
            && (forall k, m :: k in claim && m in claim && k != m ==> claim[k] != claim[m])
  {
    var calls := Run(cfg, INITIAL, es).calls;
    var n := |calls|;
    RunKeepsInv(cfg, INITIAL, es);
    claim := map k: nat | k <= Begun(calls, n) && HasText(calls, n, k) :: FirstText(calls, n, k);
    forall i: nat | i < n && calls[i] == AssistantAudio(true)
      ensures Begun(calls, i) in claim && claim[Begun(calls, i)] < i
    {
      assert AudioIsMarked(calls, i) && Begun(calls, i) <= Begun(calls, n);
      var c: nat :| c < i && Vets(calls, c, Begun(calls, i));
    }
  }

  // ---- Retractions and misfires -----------------------------------------------------------------------

  ghost predicate Shown(calls: seq<Call>, n: nat, text: string)
    requires n <= |calls|
  {
    exists i: nat :: i < n && calls[i] == UserText(text)
  }

  ghost predicate AllShown(calls: seq<Call>, n: nat, texts: seq<string>)
    requires n <= |calls|
  {
    forall text :: text in texts ==> Shown(calls, n, text)
  }

  /** What may be retracted, and whatever was retracted, was shown before. */
  ghost predicate RetractsShown(s: State) {
    && AllShown(s.calls, |s.calls|, s.texts.user)
    && forall i: nat :: i < |s.calls| && s.calls[i].UserTextRetraction? ==> AllShown(s.calls, i, s.calls[i].texts)
  }

  lemma {:induction false} PartsAreTexts(cfg: Config, user: seq<string>, assistant: seq<string>)
    ensures forall text :: text in PartsOfSome(cfg, user, assistant) ==> text in user
  {
    if user != [] {
      PartsAreTexts(cfg, user[1..], assistant);
    }
  }

  lemma ShownStays(calls: seq<Call>, more: seq<Call>, n: nat, m: nat, texts: seq<string>)
    requires calls <= more && n <= |calls| && n <= m <= |more| && AllShown(calls, n, texts)
    ensures AllShown(more, m, texts)
  {
    forall text | text in texts ensures Shown(more, m, text) {
      assert Shown(calls, n, text);
      var i: nat :| i < n && calls[i] == UserText(text);
      assert more[i] == UserText(text);
    }
  }

  /** A call that retracts nothing, or only what was shown. */
  lemma CallKeepsRetractions(s: State, call: Call)
    requires RetractsShown(s) && (call.UserTextRetraction? ==> AllShown(s.calls, |s.calls|, call.texts))
    ensures RetractsShown(Called(s, call))
  {
    var calls := s.calls + [call];
    ShownStays(s.calls, calls, |s.calls|, |calls|, s.texts.user);
    forall i: nat | i < |calls| && calls[i].UserTextRetraction? ensures AllShown(calls, i, calls[i].texts) {
      ShownStays(s.calls, calls, i, i, calls[i].texts);
    }
  }

  lemma UserTextKeepsRetractions(s: State, content: string)
    requires RetractsShown(s)
    ensures RetractsShown(OnUserText(s, content))
  {
    CallKeepsRetractions(s, UserText(content));
    var calls := s.calls + [UserText(content)];
    assert calls[|s.calls|] == UserText(content);
    assert Shown(calls, |calls|, content);
  }

  lemma CompletionKeepsRetractions(cfg: Config, s: State, interrupted: bool)
    requires RetractsShown(s)
    ensures RetractsShown(OnCompletionEnd(cfg, s, interrupted))
  {
    PartsAreTexts(cfg, s.texts.user, s.texts.assistant);
    CallKeepsRetractions(s, UserTextRetraction(Misfired(cfg, s.texts)));
    CallKeepsRetractions(Retracting(s, Misfired(cfg, s.texts)), TurnComplete(interrupted));
  }

  lemma TextOutputKeepsRetractions(cfg: Config, s: State, e: Event)
    requires RetractsShown(s) && e.TextOutput?
    ensures RetractsShown(OnTextOutput(cfg, s, e.role, e.name, e.id, e.content))
  {
    CallKeepsRetractions(s, Interrupted);
    CallKeepsRetractions(s, EchoDetected(e.content));
    UserTextKeepsRetractions(s, e.content);
    CallKeepsRetractions(s, AssistantText(cfg.sanitize(e.content), TextStage(s, e.id), s.vetting.inside));
  }

  lemma StepKeepsRetractions(cfg: Config, s: State, e: Event)
    requires RetractsShown(s)
    ensures RetractsShown(Step(cfg, s, e))
  {
    if e.ContentStart? {
      CallKeepsRetractions(s, AudioBlockBegins);
    } else if e.ContentEnd? {
      CallKeepsRetractions(s, TurnComplete(e.reason == INTERRUPTED));
    } else if e.TextOutput? {
      TextOutputKeepsRetractions(cfg, s, e);
    } else if e.AudioOutput? {
      CallKeepsRetractions(s, AssistantAudio(s.vetting.vetted));
    } else if e.CompletionEnd? {
      CompletionKeepsRetractions(cfg, s, e.interrupted);
    } else {
      CallKeepsRetractions(s, Failed);
    }
  }

  /** In every run, only texts that were passed on as the user's are taken back. */
  lemma {:induction false} OnlyShownTextsAreRetracted(cfg: Config, s: State, es: seq<Event>)
    requires RetractsShown(s)
    ensures RetractsShown(Run(cfg, s, es))
    decreases |es|
  {
    if es != [] {
      StepKeepsRetractions(cfg, s, es[0]);
      OnlyShownTextsAreRetracted(cfg, Step(cfg, s, es[0]), es[1..]);
    }
  }

  /** Nova Sonic's output events name no blocks, and no completion ends before the session does. Then no
      block ever counts as closed, and only the check inside an assistant's block can find a misfire. */
  predicate AsDocumented(e: Event) {
    && (e.ContentStart? || e.ContentEnd? || e.TextOutput? ==> e.name.None?)
    && !e.CompletionEnd?
  }

  predicate NothingNamed(c: Checks) {
    |c.closed| == 0 && |c.roles| == 0 && !c.assistantClosed && !c.misfire
  }

  lemma DocumentedNamesNothing(cfg: Config, s: State, e: Event)
    requires NothingNamed(s.checks) && AsDocumented(e)
    ensures NothingNamed(Step(cfg, s, e).checks)
  {
    if e.ContentStart? {
      assert NothingNamed(ChecksAtStart(s.checks, e.role, e.name));
    } else if e.ContentEnd? {
      assert NothingNamed(ChecksAtEnd(s.checks, e.name));
    } else if e.TextOutput? {
      assert OnTextOutput(cfg, s, e.role, e.name, e.id, e.content).checks == s.checks;
    }
  }

  lemma {:induction false} NamedBlocksNeverMisfire(cfg: Config, s: State, es: seq<Event>)
    requires NothingNamed(s.checks) && forall i :: 0 <= i < |es| ==> AsDocumented(es[i])
    ensures var t := Run(cfg, s, es);
            && NothingNamed(t.checks)
            && forall role: Role :: Misfires(t.checks, role, None) <==> role == USER && t.checks.insideAssistant
    decreases |es|
  {
    if es != [] {
      assert AsDocumented(es[0]);
      DocumentedNamesNothing(cfg, s, es[0]);
      NamedBlocksNeverMisfire(cfg, Step(cfg, s, es[0]), es[1..]);
    }
  }

  // ---- Reading the response stream --------------------------------------------------------------------

  class ResponseStream {
    const cfg: Config
    var running: bool
    var checks: Checks
    var turnTexts: TurnTexts
    var lastAssistantText: string
    var displayText: bool
    var stage: Stage
    var blocks: map<string, Block>
    var vetting: Vetting
    // The handlers' calls.
    ghost var calls: seq<Call>

    ghost function View(): State
      reads this
    {
      State(running, checks, turnTexts, lastAssistantText, displayText, stage, blocks, vetting, calls)
    }

    constructor (cfg: Config)
      ensures View() == INITIAL && this.cfg == cfg
    {
      this.cfg := cfg;
      running, displayText, lastAssistantText, stage, blocks := true, false, "", NoStage, map[];
      checks := Checks(map[], {}, false, false, false);
      turnTexts := TurnTexts([], []);
      vetting := Vetting(0, 0, false, false);
      calls := [];
    }

    method CheckStart(role: Role, name: Option<string>)
      modifies this`checks
      ensures checks == ChecksAtStart(old(checks), role, name)
    {
      checks := checks.(misfire := role == USER && checks.assistantClosed, insideAssistant := role == ASSISTANT);
      if name.Some? {
        checks := checks.(roles := checks.roles[name.value := role]);
      }
    }

    method NoteBlock(role: Role, id: Option<string>, kind: BlockType, blockStage: Stage)
      modifies this`displayText, this`stage, this`blocks
      ensures stage == StageOf(role, blockStage) && displayText == IsShown(stage)
      ensures blocks == BlocksAtStart(old(blocks), id, Block(role, kind, stage))
    {
      displayText, stage := false, NoStage;
      if role == ASSISTANT {
        stage := blockStage;
        displayText := blockStage == FINAL || blockStage == SPECULATIVE;
      }
      if id.Some? {
        blocks := blocks[id.value := Block(role, kind, stage)];
      }
    }

    method StartAudio()
      modifies this`vetting, this`calls
      ensures vetting == AudioBegins(old(vetting)) && calls == old(calls) + [AudioBlockBegins]
    {
      vetting := vetting.(inside := true, vetted := vetting.textSeq > vetting.seqAtAudioStart);
      vetting := vetting.(seqAtAudioStart := vetting.textSeq);
      calls := calls + [AudioBlockBegins];
    }

    method StartBlock(role: Role, name: Option<string>, id: Option<string>, kind: BlockType, blockStage: Stage)
      modifies this
      ensures View() == OnContentStart(old(View()), role, name, id, kind, blockStage)
    {
      CheckStart(role, name);
      NoteBlock(role, id, kind, blockStage);
      if role == ASSISTANT && kind == AUDIO {
        StartAudio();
      }
    }

    method CloseBlock(id: Option<string>) returns (ended: Option<Block>)
      modifies this`blocks, this`vetting
      ensures ended == BlockOf(old(blocks), id)
      ensures blocks == if id.Some? then old(blocks) - {id.value} else old(blocks)
      ensures vetting == VettingAtEnd(old(vetting), ended)
    {
      ended := None;
      if id.Some? {
        if id.value in blocks {
          ended := Some(blocks[id.value]);
        }
        blocks := blocks - {id.value};
      }
      if ended.Some? && ended.value.kind == AUDIO {
        vetting := vetting.(inside := false);
      }
    }

    method CheckEnd(name: Option<string>)
      modifies this`checks
      ensures checks == ChecksAtEnd(old(checks), name)
    {
      if name.Some? {
        checks := checks.(closed := checks.closed + {name.value});
        if name.value in checks.roles && checks.roles[name.value] == ASSISTANT {
          checks := checks.(assistantClosed := true);
        }
      }
      checks := checks.(misfire := false, insideAssistant := false);
    }

    method EndBlock(name: Option<string>, id: Option<string>, reason: StopReason)
      modifies this
      ensures View() == OnContentEnd(old(View()), name, id, reason)
    {
      var ended := CloseBlock(id);
      if EndsTurn(ended, reason) {
        calls := calls + [TurnComplete(reason == INTERRUPTED)];
      }
      CheckEnd(name);
    }

    method ReadUserText(content: string)
      modifies this`calls, this`turnTexts
      ensures View() == if cfg.echoes(content, lastAssistantText) then Called(old(View()), EchoDetected(content))
                        else OnUserText(old(View()), content)
    {
      if cfg.echoes(content, lastAssistantText) {
        calls := calls + [EchoDetected(content)];
        return;
      }
      turnTexts := turnTexts.(user := turnTexts.user + [content]);
      calls := calls + [UserText(content)];
    }

    method PassText(text: string, textStage: Stage)
      modifies this`vetting, this`calls
      ensures vetting == TextPasses(old(vetting), textStage)
      ensures calls == old(calls) + [AssistantText(text, textStage, old(vetting).inside)]
    {
      calls := calls + [AssistantText(text, textStage, vetting.inside)];
      if textStage == SPECULATIVE {
        vetting := vetting.(textSeq := vetting.textSeq + 1);
        if vetting.inside {
          vetting := vetting.(vetted := true, seqAtAudioStart := vetting.textSeq);
        }
      }
    }

    method ReadAssistantText(id: Option<string>, content: string)
      modifies this
      ensures View() == if ShowsText(old(View()), id) && cfg.sanitize(content) != ""
                        then OnAssistantText(old(View()), cfg.sanitize(content), TextStage(old(View()), id))
                        else old(View())
    {
      var own := id.Some? && id.value in blocks;
      var textStage := if own then blocks[id.value].stage else stage;
      var shown := if own then blocks[id.value].role == ASSISTANT && IsShown(textStage) else displayText;
      var text := cfg.sanitize(content);
      if !shown || text == "" {
        return;
      }
      lastAssistantText := text;
      turnTexts := turnTexts.(assistant := turnTexts.assistant + [text]);
      PassText(text, textStage);
    }

    method ReadText(role: Role, name: Option<string>, id: Option<string>, content: string)
      modifies this
      ensures View() == OnTextOutput(cfg, old(View()), role, name, id, content)
    {
      if (name.Some? && name.value in checks.closed) || checks.misfire {
        return;
      }
      if name.None? && role == USER && checks.insideAssistant {
        return;
      }
      if cfg.isStatus(content) {
        calls := calls + [Interrupted];
        return;
      }
      var resolved := if name.Some? && name.value in checks.roles then checks.roles[name.value] else role;
      if resolved == USER {
        ReadUserText(content);
      } else if resolved == ASSISTANT {
        ReadAssistantText(id, content);
      }
    }

    /** Takes back the user's texts of the turn that were the assistant's. */
    method Retract()
      modifies this`calls
      ensures View() == Retracting(old(View()), Misfired(cfg, turnTexts))
    {
      if |turnTexts.user| > 0 && |turnTexts.assistant| > 0 {
        var individual := PartsOfSome(cfg, turnTexts.user, turnTexts.assistant);
        var together := IsPartOfSome(cfg, Join(turnTexts.user), turnTexts.assistant);
        var misfired := if together then turnTexts.user else individual;
        if |misfired| > 0 {
          calls := calls + [UserTextRetraction(misfired)];
        }
      }
    }

    method EndCompletion(interrupted: bool)
      modifies this
      ensures View() == OnCompletionEnd(cfg, old(View()), interrupted)
    {
      Retract();
      checks := Checks(checks.roles, {}, false, false, false);
      turnTexts := TurnTexts([], []);
      calls := calls + [TurnComplete(interrupted)];
    }

    method Read(event: Event)
      requires running
      modifies this
      ensures View() == Step(cfg, old(View()), event)
    {
      match event
      case ContentStart(role, name, id, kind, blockStage) => StartBlock(role, name, id, kind, blockStage);
      case ContentEnd(name, id, reason, _) => EndBlock(name, id, reason);
      case TextOutput(role, name, id, content) => ReadText(role, name, id, content);
      case AudioOutput => calls := calls + [AssistantAudio(vetting.vetted)];
      case CompletionEnd(interrupted) => EndCompletion(interrupted);
      case TerminalException =>
        calls := calls + [Failed];
        running := false;
      case StopRequested => running := false;
    }

    /** Reads the stream until it ends, fails or the session is stopped. */
    method Process(events: seq<Event>)
      modifies this
      ensures View() == Run(cfg, old(View()), events)
    {
      var i := 0;
      while i < |events| && running
        invariant i <= |events|
        invariant View() == Run(cfg, old(View()), events[..i])
      {
        RunAppends(cfg, old(View()), events[..i], events[i]);
        assert events[..i] + [events[i]] == events[..i + 1];
        Read(events[i]);
        i := i + 1;
      }
      RunSplits(cfg, old(View()), events[..i], events[i..]);
      assert events[..i] + events[i..] == events;
      if !running {
        StoppedReadsNothing(cfg, View(), events[i..]);
      }
    }
  }
}
