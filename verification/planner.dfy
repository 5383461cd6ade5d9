/** The shot planner of the song-to-video workflow: expands a song structure
    into timed shots with resolved prompts and lyrics excerpts, and loops the
    whole shot list when the planned duration falls short of the song.

    JavaScript's `a || b` treats `undefined`, `0` and `""` alike, so an absent
    text field is "" and an absent duration is 0 throughout. */
module SongPlanner {
  import opened Wrappers
  import opened Strings

  // ---------------------------------------------------------------------
  // Data model
  // ---------------------------------------------------------------------

  /** One section of a song structure. */
  datatype Section = Section(key: string, durationSec: nat, repeat: int, prompt: string, labelText: string)

  /** A section instance after expansion; `instance` counts from 1. */
  datatype Instance = Instance(section: Section, instance: nat)

  /** A planned shot. `loop` is present only on shots of the looped plan. */
  datatype Shot = Shot(
    id: nat,
    labelText: string,
    prompt: string,
    durationSec: nat,
    startSec: nat,
    lyricsExcerpt: Option<string>,
    loop: Option<nat>)

  /** The planner's result. */
  datatype Plan = Plan(shots: seq<Shot>, plannedDuration: nat)

  /** The planner's arguments; `None` is an argument left `undefined`, which
      takes the parameter's default. */
  datatype PlanRequest = PlanRequest(
    lyrics: string,
    songDurationSec: Option<nat>,
    clipDurationSec: Option<nat>,
    structure: seq<Section>,
    baseStyle: Option<string>,
    extraStyle: Option<seq<string>>)

  /** The arguments after defaulting. */
  datatype Settings = Settings(
    lyrics: string,
    songDurationSec: nat,
    clipDurationSec: nat,
    baseStyle: string,
    extraStyle: seq<string>)

  const DefaultSongDurationSec: nat := 210
  const DefaultClipDurationSec: nat := 6

  const DefaultBaseStyle: string :=
    "cinematic, mediterranean vibe, soft warm light, realistic, 30fps, high quality, filmed on Alexa Mini"

  const PromptTemplates: map<string, string> := map[
    "intro" := "intro shot, studio lights, KRSTUDIO logo reveal, subtle motion",
    "verse" := "emotional verse scene, night city street, intimate lonely mood",
    "chorus" := "chorus scene, bright colors, golden hour glow, dynamic camera move",
    "bridge" := "bridge sequence, dramatic lighting, abstract particles, tension build-up",
    "outro" := "outro shot, KRSTUDIO logo, spotlight, slow fade out",
    "fallback" := "musical performance, cinematic framing, moody lighting"
  ]

  const DefaultStructure: seq<Section> := [
    Section("intro", 5, 0, "", ""),
    Section("verse", 10, 2, "", ""),
    Section("chorus", 8, 0, "", ""),
    Section("verse", 10, 2, "", ""),
    Section("bridge", 8, 0, "", ""),
    Section("chorus", 8, 0, "", ""),
    Section("outro", 6, 0, "", "")
  ]

  function SettingsOf(req: PlanRequest): Settings {
    Settings(
      req.lyrics,
      req.songDurationSec.GetOr(DefaultSongDurationSec),
      req.clipDurationSec.GetOr(DefaultClipDurationSec),
      req.baseStyle.GetOr(DefaultBaseStyle),
      req.extraStyle.GetOr([]))
  }

  /** An empty or missing structure is replaced by the default one. */
  function ChosenStructure(structure: seq<Section>): (r: seq<Section>)
    ensures |r| > 0
    ensures |structure| > 0 ==> r == structure
    ensures |structure| == 0 ==> r == DefaultStructure
  {
    if |structure| > 0 then structure else DefaultStructure
  }

  /** `ceil(a / b)` on naturals. */
  function CeilDiv(a: nat, b: nat): nat
    requires b > 0
  {
    (a + b - 1) / b
  }

  /** CeilDiv(a, b) is the least number of b-sized steps reaching a. */
  lemma CeilDivBounds(a: nat, b: nat)
    requires b > 0
    ensures CeilDiv(a, b) * b >= a
    ensures a > 0 ==> CeilDiv(a, b) > 0 && (CeilDiv(a, b) - 1) * b < a
    ensures a == 0 ==> CeilDiv(a, b) == 0
  {
    var q, m := (a + b - 1) / b, (a + b - 1) % b;
    assert a + b - 1 == q * b + m && 0 <= m < b;
    assert (q - 1) * b == q * b - b;
  }

  // ---------------------------------------------------------------------
  // Prompt templates
  // ---------------------------------------------------------------------

  /** `PROMPT_TEMPLATES[key] || PROMPT_TEMPLATES.fallback`. */
  function TemplateFor(key: string): (t: string)
    ensures key in PromptTemplates ==> t == PromptTemplates[key]
    ensures key !in PromptTemplates ==> t == PromptTemplates["fallback"]
  {
    if key in PromptTemplates && PromptTemplates[key] != "" then PromptTemplates[key]
    else PromptTemplates["fallback"]
  }

  /** The section template, then the base style, then the extra style tags
      comma-joined when there are any. */
  function ResolvePromptTemplate(key: string, baseStyle: string, extraStyle: seq<string>): (r: string)
    ensures |extraStyle| == 0 ==> r == TemplateFor(key) + ", " + baseStyle
    ensures |extraStyle| > 0 ==> r == TemplateFor(key) + ", " + baseStyle + ", " + Join(extraStyle, ", ")
  {
    var head := TemplateFor(key) + ", " + baseStyle;
    var additive := if |extraStyle| > 0 then ", " + Join(extraStyle, ", ") else "";
    assert |extraStyle| > 0 ==> head + additive == head + ", " + Join(extraStyle, ", ");
    head + additive
  }

  // ---------------------------------------------------------------------
  // Structure expansion and durations
  // ---------------------------------------------------------------------

  /** `Math.max(segment.repeat || 1, 1)`. */
  function RepeatCount(s: Section): (n: nat)
    ensures n >= 1
    ensures s.repeat >= 1 ==> n == s.repeat
    ensures s.repeat < 1 ==> n == 1
  {
    if s.repeat > 1 then s.repeat else 1
  }

  function SumRepeats(structure: seq<Section>): nat {
    if |structure| == 0 then 0 else SumRepeats(structure[..|structure| - 1]) + RepeatCount(structure[|structure| - 1])
  }

  /** The instances of one section, numbered 1..RepeatCount. */
  function Copies(s: Section): seq<Instance> {
    seq(RepeatCount(s), k requires 0 <= k < RepeatCount(s) => Instance(s, k + 1))
  }

  /** `structure.flatMap(...)`. */
  function ExpandStructure(structure: seq<Section>): seq<Instance> {
    if |structure| == 0 then []
    else ExpandStructure(structure[..|structure| - 1]) + Copies(structure[|structure| - 1])
  }

  /** The expansion has one instance per repetition of every section. */
  lemma {:induction false} ExpandLength(structure: seq<Section>)
    ensures |ExpandStructure(structure)| == SumRepeats(structure)
  {
    if |structure| > 0 {
      ExpandLength(structure[..|structure| - 1]);
    }
  }

  /** Instance k+1 of section i sits right after the instances of sections 0..i-1:
      sections keep their order and each one's instances are consecutive. */
  lemma {:induction false} ExpandAt(structure: seq<Section>, i: nat, k: nat)
    requires i < |structure| && k < RepeatCount(structure[i])
    ensures SumRepeats(structure[..i]) + k < |ExpandStructure(structure)|
    ensures ExpandStructure(structure)[SumRepeats(structure[..i]) + k] == Instance(structure[i], k + 1)
  {
    var n := |structure|;
    var front := structure[..n - 1];
    ExpandLength(structure);
    ExpandLength(front);
    if i == n - 1 {
      assert structure[..i] == front;
    } else {
      assert front[..i] == structure[..i];
      ExpandAt(front, i, k);
      ExpandLength(front[..i]);
    }
  }

  /** `seg.durationSec || 0`, summed over the expanded structure. */
  function TotalDuration(expanded: seq<Instance>): nat {
    if |expanded| == 0 then 0
    else TotalDuration(expanded[..|expanded| - 1]) + expanded[|expanded| - 1].section.durationSec
  }

  /** `segment.durationSec || clipDurationSec`. */
  function ShotDuration(inst: Instance, clipDurationSec: nat): nat {
    if inst.section.durationSec != 0 then inst.section.durationSec else clipDurationSec
  }

  /** Durations of instances as shots, summed. */
  function PlannedLength(expanded: seq<Instance>, clipDurationSec: nat): nat {
    if |expanded| == 0 then 0
    else PlannedLength(expanded[..|expanded| - 1], clipDurationSec) + ShotDuration(expanded[|expanded| - 1], clipDurationSec)
  }

  function SumDurations(shots: seq<Shot>): nat {
    if |shots| == 0 then 0 else SumDurations(shots[..|shots| - 1]) + shots[|shots| - 1].durationSec
  }

  /** Every shot starts where the shots before it end. */
  ghost predicate Cumulative(shots: seq<Shot>) {
    forall i :: 0 <= i < |shots| ==> shots[i].startSec == SumDurations(shots[..i])
  }

  // ---------------------------------------------------------------------
  // Lyrics excerpts
  // ---------------------------------------------------------------------

  /** s[j..k] is all whitespace. */
  predicate SpaceRun(s: string, j: nat, k: nat)
    requires j <= k <= |s|
  {
    forall m :: j <= m < k ==> IsSpace(s[m])
  }

  /** Index of the last '\n' in the whitespace run that starts at j: the run
      up to it is whitespace, no newline of the run comes after it, and there
      is none exactly when the run holds no newline. */
  function LastNewlineInRun(s: string, j: nat): (r: Option<nat>)
    requires j <= |s|
    ensures r.Some? ==> j <= r.value < |s| && s[r.value] == '\n' && SpaceRun(s, j, r.value + 1)
    ensures r.Some? ==> forall k :: r.value < k < |s| && SpaceRun(s, j, k + 1) ==> s[k] != '\n'
    ensures r.None? <==> forall k :: j <= k < |s| && SpaceRun(s, j, k + 1) ==> s[k] != '\n'
    decreases |s| - j
  {
    if j == |s| || !IsSpace(s[j]) then None
    else
      var rest := LastNewlineInRun(s, j + 1);
      match rest
      case Some(e) => Some(e)
      case None => if s[j] == '\n' then Some(j) else None
  }

  /** The pieces of s[start..] cut at every match of `\n\s*\n` at or after i;
      the greedy `\s*` makes a match run to the last newline of its blank run. */
  function BlocksFrom(s: string, start: nat, i: nat): (r: seq<string>)
    requires start <= i <= |s|
    ensures |r| >= 1
    decreases |s| - i
  {
    if i == |s| then [s[start..]]
    else if s[i] == '\n' && LastNewlineInRun(s, i + 1).Some? then
      var e := LastNewlineInRun(s, i + 1).value;
      [s[start..i]] + BlocksFrom(s, e + 1, e + 1)
    else BlocksFrom(s, start, i + 1)
  }

  /** `lyrics.split(/\n\s*\n/).map((block) => block.trim())`: every block is trimmed. */
  function SplitBlocks(lyrics: string): (r: seq<string>)
    ensures |r| >= 1
    ensures forall k :: 0 <= k < |r| ==> r[k] == [] || (!IsSpace(r[k][0]) && !IsSpace(r[k][|r[k]| - 1]))
  {
    var raw := BlocksFrom(lyrics, 0, 0);
    seq(|raw|, k requires 0 <= k < |raw| => Trim(raw[k]))
  }

  /** No lyrics, no excerpt; otherwise block `index mod blockCount`, which is always
      in range, and which neither starts nor ends with whitespace. */
  function ExtractLyricsExcerpt(lyrics: string, index: nat): (r: Option<string>)
    ensures r.None? <==> lyrics == ""
    ensures r.Some? ==> r.value in SplitBlocks(lyrics)
    ensures r.Some? ==> r.value == SplitBlocks(lyrics)[index % |SplitBlocks(lyrics)|]
    ensures r.Some? ==> r.value == [] || (!IsSpace(r.value[0]) && !IsSpace(r.value[|r.value| - 1]))
  {
    if lyrics == "" then None
    else
      var blocks := SplitBlocks(lyrics);
      if |blocks| == 0 then None else Some(blocks[index % |blocks|])
  }

  /** The first blockCount sections get the blocks in order. */
  lemma ExcerptInOrder(lyrics: string, index: nat)
    requires lyrics != "" && index < |SplitBlocks(lyrics)|
    ensures ExtractLyricsExcerpt(lyrics, index) == Some(SplitBlocks(lyrics)[index])
  {
    var blocks := SplitBlocks(lyrics);
    assert index % |blocks| == index;
  }

  /** Past the last block the excerpts start over: shot index + blockCount gets
      the same excerpt as shot index. */
  lemma ExcerptWraps(lyrics: string, index: nat)
    ensures ExtractLyricsExcerpt(lyrics, index + |SplitBlocks(lyrics)|) == ExtractLyricsExcerpt(lyrics, index)
  {
    if lyrics != "" {
      ModShift(index, |SplitBlocks(lyrics)|);
    }
  }

  lemma ModShift(a: nat, n: nat)
    requires n > 0
    ensures (a + n) % n == a % n
  {
    var x := a + n;
    var k := x / n - a / n - 1;
    assert n * k == n * (x / n) - n * (a / n) - n;
    assert n * k == a % n - x % n;
    if k > 0 {
      MulMono(n, 1, k);
    } else if k < 0 {
      MulMono(n, 1, -k);
    }
  }

  /** Lyrics without a blank line form a single block, trimmed. */
  lemma {:induction false} SingleBlock(lyrics: string)
    requires '\n' !in lyrics
    ensures SplitBlocks(lyrics) == [Trim(lyrics)]
  {
    NoBreakBlocks(lyrics, 0);
  }

  lemma {:induction false} NoBreakBlocks(s: string, i: nat)
    requires i <= |s| && '\n' !in s
    ensures BlocksFrom(s, 0, i) == [s]
    decreases |s| - i
  {
    if i < |s| {
      assert s[i] in s;
      NoBreakBlocks(s, i + 1);
    } else {
      assert s[0..] == s;
    }
  }

  // ---------------------------------------------------------------------
  // Single pass
  // ---------------------------------------------------------------------

  /** `segment.key || "section_" + (idx + 1)`. */
  function SectionKey(inst: Instance, idx: nat): string {
    if inst.section.key != "" then inst.section.key else "section_" + NatToString(idx + 1)
  }

  /** An explicit prompt is used verbatim; otherwise the template is resolved. */
  function ShotPrompt(inst: Instance, idx: nat, s: Settings): (r: string)
    ensures inst.section.prompt != "" ==> r == inst.section.prompt
    ensures inst.section.prompt == "" ==> r == ResolvePromptTemplate(SectionKey(inst, idx), s.baseStyle, s.extraStyle)
  {
    if inst.section.prompt != "" then inst.section.prompt
    else ResolvePromptTemplate(SectionKey(inst, idx), s.baseStyle, s.extraStyle)
  }

  /** `segment.label || segment.key || "section_" + (idx + 1)`. */
  function ShotLabel(inst: Instance, idx: nat): string {
    if inst.section.labelText != "" then inst.section.labelText else SectionKey(inst, idx)
  }

  /** Shot idx of the single pass, in closed form. */
  function SinglePassShot(expanded: seq<Instance>, idx: nat, s: Settings): Shot
    requires idx < |expanded|
  {
    Shot(
      idx + 1,
      ShotLabel(expanded[idx], idx),
      ShotPrompt(expanded[idx], idx, s),
      ShotDuration(expanded[idx], s.clipDurationSec),
      PlannedLength(expanded[..idx], s.clipDurationSec),
      ExtractLyricsExcerpt(s.lyrics, idx),
      None)
  }

  function SinglePass(expanded: seq<Instance>, s: Settings): (r: seq<Shot>)
    ensures |r| == |expanded|
  {
    seq(|expanded|, i requires 0 <= i < |expanded| => SinglePassShot(expanded, i, s))
  }

  /** The shot durations of the single pass add up like the instances they come from. */
  lemma {:induction false} SinglePassDurations(expanded: seq<Instance>, s: Settings, i: nat)
    requires i <= |expanded|
    ensures SumDurations(SinglePass(expanded, s)[..i]) == PlannedLength(expanded[..i], s.clipDurationSec)
  {
    if i > 0 {
      var shots := SinglePass(expanded, s);
      SinglePassDurations(expanded, s, i - 1);
      assert shots[..i][..i - 1] == shots[..i - 1];
      assert expanded[..i][..i - 1] == expanded[..i - 1];
    }
  }

  /** Single pass: shot i has id i+1 and starts at the sum of the durations before it. */
  lemma SinglePassCumulative(expanded: seq<Instance>, s: Settings)
    ensures Cumulative(SinglePass(expanded, s))
    ensures forall i :: 0 <= i < |expanded| ==> SinglePass(expanded, s)[i].id == i + 1
  {
    forall i | 0 <= i < |expanded|
      ensures SinglePass(expanded, s)[i].startSec == SumDurations(SinglePass(expanded, s)[..i])
    {
      SinglePassDurations(expanded, s, i);
    }
  }

  /** Missing section durations count as 0 in the planned duration but as
      clipDurationSec in the shots, so the shots never cover less. */
  lemma {:induction false} PlannedNotAboveShots(expanded: seq<Instance>, clip: nat)
    ensures TotalDuration(expanded) <= PlannedLength(expanded, clip)
    ensures (forall i :: 0 <= i < |expanded| ==> expanded[i].section.durationSec > 0)
      ==> TotalDuration(expanded) == PlannedLength(expanded, clip)
  {
    if |expanded| > 0 {
      var front := expanded[..|expanded| - 1];
      PlannedNotAboveShots(front, clip);
      assert forall i :: 0 <= i < |front| ==> front[i] == expanded[i];
    }
  }

  /** The single pass lasts at least the raw planned duration. */
  lemma SinglePassCovers(expanded: seq<Instance>, s: Settings)
    ensures TotalDuration(expanded) <= SumDurations(SinglePass(expanded, s))
  {
    PlannedNotAboveShots(expanded, s.clipDurationSec);
    SinglePassDurations(expanded, s, |expanded|);
    assert expanded[..|expanded|] == expanded;
    assert SinglePass(expanded, s)[..|expanded|] == SinglePass(expanded, s);
  }

  // ---------------------------------------------------------------------
  // Looping
  // ---------------------------------------------------------------------

  lemma {:induction false} SumAppend(a: seq<Shot>, b: seq<Shot>)
    ensures SumDurations(a + b) == SumDurations(a) + SumDurations(b)
    decreases |b|
  {
    if |b| == 0 {
      assert a + b == a;
    } else {
      SumAppend(a, b[..|b| - 1]);
      assert (a + b)[..|a + b| - 1] == a + b[..|b| - 1];
      assert (a + b)[|a + b| - 1] == b[|b| - 1];
    }
  }

  /** Repetition i of the shot list: every shot tagged with loop i+1 and
      started after i whole passes and the shots before it in this pass. */
  function Repetition(shots: seq<Shot>, i: nat): (r: seq<Shot>)
    ensures |r| == |shots|
  {
    seq(|shots|, k requires 0 <= k < |shots| =>
      shots[k].(loop := Some(i + 1), startSec := i * SumDurations(shots) + SumDurations(shots[..k])))
  }

  /** `loops` whole repetitions, one after the other. */
  function Looped(shots: seq<Shot>, loops: nat): seq<Shot> {
    if loops == 0 then [] else Looped(shots, loops - 1) + Repetition(shots, loops - 1)
  }

  lemma {:induction false} RepetitionPrefixSum(shots: seq<Shot>, i: nat, k: nat)
    requires k <= |shots|
    ensures SumDurations(Repetition(shots, i)[..k]) == SumDurations(shots[..k])
  {
    if k > 0 {
      RepetitionPrefixSum(shots, i, k - 1);
      assert Repetition(shots, i)[..k][..k - 1] == Repetition(shots, i)[..k - 1];
      assert shots[..k][..k - 1] == shots[..k - 1];
    }
  }

  lemma {:induction false} LoopedLength(shots: seq<Shot>, loops: nat)
    ensures |Looped(shots, loops)| == loops * |shots|
  {
    if loops > 0 {
      LoopedLength(shots, loops - 1);
      assert (loops - 1) * |shots| + |shots| == loops * |shots|;
    }
  }

  /** The repeated list has loops * n shots lasting loops times the single pass. */
  lemma {:induction false} LoopedSize(shots: seq<Shot>, loops: nat)
    ensures |Looped(shots, loops)| == loops * |shots|
    ensures SumDurations(Looped(shots, loops)) == loops * SumDurations(shots)
  {
    if loops > 0 {
      LoopedSize(shots, loops - 1);
      SumAppend(Looped(shots, loops - 1), Repetition(shots, loops - 1));
      RepetitionPrefixSum(shots, loops - 1, |shots|);
      assert Repetition(shots, loops - 1)[..|shots|] == Repetition(shots, loops - 1);
      assert shots[..|shots|] == shots;
      assert (loops - 1) * |shots| + |shots| == loops * |shots|;
      assert (loops - 1) * SumDurations(shots) + SumDurations(shots) == loops * SumDurations(shots);
    }
  }

  /** Clone k of repetition i sits at index i * n + k. */
  lemma {:induction false} LoopedAt(shots: seq<Shot>, loops: nat, i: nat, k: nat)
    requires i < loops && k < |shots|
    ensures i * |shots| + k < |Looped(shots, loops)|
    ensures Looped(shots, loops)[i * |shots| + k] == Repetition(shots, i)[k]
  {
    var prev := Looped(shots, loops - 1);
    assert Looped(shots, loops) == prev + Repetition(shots, loops - 1);
    if i < loops - 1 {
      LoopedAt(shots, loops - 1, i, k);
    } else {
      LoopedLength(shots, loops - 1);
      assert i * |shots| == |prev|;
    }
  }

  /** Appending shots that start where their predecessors end keeps a list cumulative. */
  lemma CumulativeAppend(front: seq<Shot>, back: seq<Shot>)
    requires Cumulative(front)
    requires forall k :: 0 <= k < |back| ==> back[k].startSec == SumDurations(front) + SumDurations(back[..k])
    ensures Cumulative(front + back)
  {
    var all := front + back;
    forall j | 0 <= j < |all| ensures all[j].startSec == SumDurations(all[..j]) {
      if j < |front| {
        assert all[..j] == front[..j];
      } else {
        var k := j - |front|;
        assert all[..j] == front + back[..k];
        SumAppend(front, back[..k]);
      }
    }
  }

  /** Repetition i starts right after the i repetitions before it. */
  lemma RepetitionStarts(shots: seq<Shot>, i: nat)
    ensures var rep := Repetition(shots, i);
      forall k :: 0 <= k < |rep| ==> rep[k].startSec == SumDurations(Looped(shots, i)) + SumDurations(rep[..k])
  {
    var rep := Repetition(shots, i);
    LoopedSize(shots, i);
    forall k | 0 <= k < |rep| ensures rep[k].startSec == SumDurations(Looped(shots, i)) + SumDurations(rep[..k]) {
      RepetitionPrefixSum(shots, i, k);
    }
  }

  /** Every clone starts where the clones pushed before it end. */
  lemma {:induction false} LoopedCumulative(shots: seq<Shot>, loops: nat)
    ensures Cumulative(Looped(shots, loops))
  {
    if loops > 0 {
      LoopedCumulative(shots, loops - 1);
      RepetitionStarts(shots, loops - 1);
      CumulativeAppend(Looped(shots, loops - 1), Repetition(shots, loops - 1));
    }
  }

  // Take the first `limit` elements; no limit (a division by zero in the
  // source gives Infinity) keeps everything, as does a limit past the end.
  function Take(s: seq<Shot>, limit: Option<nat>): (r: seq<Shot>)
    ensures |r| == if limit.Some? && limit.value < |s| then limit.value else |s|
    ensures r == s[..|r|]
  {
    if limit.Some? && limit.value < |s| then s[..limit.value] else s
  }

  /** `Math.ceil(songDurationSec / clipDurationSec)`; a zero clip gives Infinity. */
  function TruncationLimit(songDurationSec: nat, clipDurationSec: nat): Option<nat> {
    if clipDurationSec == 0 then None else Some(CeilDiv(songDurationSec, clipDurationSec))
  }

  // ---------------------------------------------------------------------
  // The planner
  // ---------------------------------------------------------------------

  function ExpandedOf(req: PlanRequest): seq<Instance> {
    ExpandStructure(ChosenStructure(req.structure))
  }

  function SinglePassOf(req: PlanRequest): seq<Shot> {
    SinglePass(ExpandedOf(req), SettingsOf(req))
  }

  /** The raw planned duration, missing section durations counting 0. */
  function RawPlannedOf(req: PlanRequest): nat {
    TotalDuration(ExpandedOf(req))
  }

  /** The source computes `Math.ceil(song / planned)` loops when planned < song;
      with planned == 0 that is Infinity and its loop never ends. */
  predicate Terminates(req: PlanRequest) {
    !(RawPlannedOf(req) == 0 && SettingsOf(req).songDurationSec > 0)
  }

  lemma PositivePlanHasShots(req: PlanRequest)
    requires RawPlannedOf(req) > 0
    ensures |SinglePassOf(req)| > 0
  {
  }

  /** The plan of the source, as written. */
  function PlanOf(req: PlanRequest): Plan
    requires Terminates(req)
  {
    var s := SettingsOf(req);
    var shots := SinglePassOf(req);
    var planned := RawPlannedOf(req);
    if planned < s.songDurationSec then
      var looped := Looped(shots, CeilDiv(s.songDurationSec, planned));
      Plan(Take(looped, TruncationLimit(s.songDurationSec, s.clipDurationSec)), SumDurations(looped))
    else Plan(shots, planned)
  }

  /** The corrected plan: a zero planned duration is a single pass, never a loop. */
  function SafePlanOf(req: PlanRequest): (r: Plan)
    ensures Terminates(req) ==> r == PlanOf(req)
    ensures RawPlannedOf(req) == 0 ==> r == Plan(SinglePassOf(req), 0)
  {
    if Terminates(req) then PlanOf(req) else Plan(SinglePassOf(req), 0)
  }

  // ---------------------------------------------------------------------
  // Properties of the plan
  // ---------------------------------------------------------------------

  /** Start offsets of a cumulative list never decrease, and strictly increase
      when every duration is positive. */
  lemma {:induction false} CumulativeOrdered(shots: seq<Shot>, i: nat, j: nat)
    requires Cumulative(shots) && i <= j < |shots|
    ensures shots[i].startSec <= shots[j].startSec
    ensures i < j && (forall k :: 0 <= k < |shots| ==> shots[k].durationSec > 0)
      ==> shots[i].startSec < shots[j].startSec
    decreases j - i
  {
    if i < j {
      CumulativeOrdered(shots, i, j - 1);
      assert shots[..j][..j - 1] == shots[..j - 1];
    }
  }

  lemma CumulativePrefix(shots: seq<Shot>, m: nat)
    requires Cumulative(shots) && m <= |shots|
    ensures Cumulative(shots[..m])
  {
    forall i | 0 <= i < m ensures shots[..m][i].startSec == SumDurations(shots[..m][..i]) {
      assert shots[..m][..i] == shots[..i];
    }
  }

  /** Every plan starts each shot where the previous shots end, across loop boundaries too. */
  lemma PlanCumulative(req: PlanRequest)
    requires Terminates(req)
    ensures Cumulative(PlanOf(req).shots)
  {
    var s := SettingsOf(req);
    var planned := RawPlannedOf(req);
    SinglePassCumulative(ExpandedOf(req), s);
    if planned < s.songDurationSec {
      var looped := Looped(SinglePassOf(req), CeilDiv(s.songDurationSec, planned));
      LoopedCumulative(SinglePassOf(req), CeilDiv(s.songDurationSec, planned));
      CumulativePrefix(looped, |PlanOf(req).shots|);
    }
  }

  /** When the structure already covers the song, the single pass is returned
      unchanged and the planned duration counts missing durations as 0. */
  lemma PlanWithoutLoop(req: PlanRequest)
    requires Terminates(req) && RawPlannedOf(req) >= SettingsOf(req).songDurationSec
    ensures PlanOf(req).shots == SinglePassOf(req)
    ensures |PlanOf(req).shots| == SumRepeats(ChosenStructure(req.structure))
    ensures PlanOf(req).plannedDuration == RawPlannedOf(req) <= SumDurations(PlanOf(req).shots)
  {
    ExpandLength(ChosenStructure(req.structure));
    SinglePassCovers(ExpandedOf(req), SettingsOf(req));
  }

  /** Loop branch: ceil(song/planned) whole repetitions, truncated to
      ceil(song/clip) shots; the reported duration is that of all
      repetitions, before truncation. */
  lemma PlanLooped(req: PlanRequest)
    requires Terminates(req) && RawPlannedOf(req) < SettingsOf(req).songDurationSec
    ensures var s := SettingsOf(req);
      var loops := CeilDiv(s.songDurationSec, RawPlannedOf(req));
      var full := loops * |SinglePassOf(req)|;
      && |PlanOf(req).shots| == (if s.clipDurationSec > 0 && CeilDiv(s.songDurationSec, s.clipDurationSec) < full
                                 then CeilDiv(s.songDurationSec, s.clipDurationSec) else full)
      && PlanOf(req).plannedDuration == loops * SumDurations(SinglePassOf(req))
    ensures |SinglePassOf(req)| > 0 && |PlanOf(req).shots| > 0
  {
    var s := SettingsOf(req);
    var loops := CeilDiv(s.songDurationSec, RawPlannedOf(req));
    LoopedSize(SinglePassOf(req), loops);
    // There is something to repeat, and at least one repetition.
    PositivePlanHasShots(req);
    CeilDivBounds(s.songDurationSec, RawPlannedOf(req));
    MulMono(loops, 1, |SinglePassOf(req)|);
    if s.clipDurationSec > 0 {
      CeilDivBounds(s.songDurationSec, s.clipDurationSec);
    }
  }

  lemma RowBound(n: nat, loops: nat, i: nat, k: nat)
    requires k < n && i * n + k < loops * n
    ensures i < loops
  {
    if i >= loops {
      MulMono(n, loops, i);
    }
  }

  /** A truncated repetition list still holds clone k of repetition i at index i * n + k. */
  lemma TakeLoopedAt(shots: seq<Shot>, loops: nat, limit: Option<nat>, i: nat, k: nat)
    requires k < |shots| && i * |shots| + k < |Take(Looped(shots, loops), limit)|
    ensures Take(Looped(shots, loops), limit)[i * |shots| + k] == Repetition(shots, i)[k]
  {
    var looped := Looped(shots, loops);
    var t := Take(looped, limit);
    var j := i * |shots| + k;
    assert |t| <= |looped| && t == looped[..|t|];
    LoopedLength(shots, loops);
    RowBound(|shots|, loops, i, k);
    LoopedAt(shots, loops, i, k);
    assert t[j] == looped[j];
  }

  /** The reported planned duration always reaches the song duration. */
  lemma PlanCoversSong(req: PlanRequest)
    requires Terminates(req)
    ensures PlanOf(req).plannedDuration >= SettingsOf(req).songDurationSec
  {
    var s := SettingsOf(req);
    var planned := RawPlannedOf(req);
    if planned < s.songDurationSec {
      PlanLooped(req);
      var loops := CeilDiv(s.songDurationSec, planned);
      CeilDivBounds(s.songDurationSec, planned);
      SinglePassCovers(ExpandedOf(req), s);
      MulMono(loops, planned, SumDurations(SinglePassOf(req)));
    }
  }

  lemma MulMono(a: nat, b: nat, c: nat)
    requires b <= c
    ensures a * b <= a * c
  {
  }

  /** Every section of an all-zero structure expands to zero-length instances. */
  lemma {:induction false} ZeroSectionsExpandToZero(structure: seq<Section>)
    requires forall i :: 0 <= i < |structure| ==> structure[i].durationSec == 0
    ensures forall k :: 0 <= k < |ExpandStructure(structure)| ==>
      ExpandStructure(structure)[k].section.durationSec == 0
  {
    if |structure| > 0 {
      var front := structure[..|structure| - 1];
      ZeroSectionsExpandToZero(front);
      var e := ExpandStructure(structure);
      var ef := ExpandStructure(front);
      var c := Copies(structure[|structure| - 1]);
      assert e == ef + c;
      forall k | 0 <= k < |e| ensures e[k].section.durationSec == 0 {
        if k < |ef| {
          assert e[k] == ef[k];
        } else {
          assert e[k] == c[k - |ef|];
        }
      }
    }
  }

  /** Instances that all last 0 seconds add up to 0. */
  lemma {:induction false} ZeroInstancesTotalZero(expanded: seq<Instance>)
    requires forall k :: 0 <= k < |expanded| ==> expanded[k].section.durationSec == 0
    ensures TotalDuration(expanded) == 0
  {
    if |expanded| > 0 {
      ZeroInstancesTotalZero(expanded[..|expanded| - 1]);
    }
  }

  /** Any non-empty structure whose durations are all missing or 0, with a
      positive song length: the planned duration is 0, the loop count is
      Infinity, and the as-written planner has no result. */
  lemma AllZeroDiverges(req: PlanRequest)
    requires |req.structure| > 0
    requires forall i :: 0 <= i < |req.structure| ==> req.structure[i].durationSec == 0
    requires SettingsOf(req).songDurationSec > 0
    ensures RawPlannedOf(req) == 0
    ensures !Terminates(req)
  {
    ZeroSectionsExpandToZero(req.structure);
    ZeroInstancesTotalZero(ExpandedOf(req));
  }

  /** One such structure, a single `intro` section with the default song
      length: the source's loop count is Infinity. */
  lemma ZeroDurationDiverges()
    ensures !Terminates(PlanRequest("", None, None, [Section("intro", 0, 0, "", "")], None, None))
  {
    var req := PlanRequest("", None, None, [Section("intro", 0, 0, "", "")], None, None);
    assert ExpandStructure(req.structure) == [Instance(req.structure[0], 1)];
  }

  // ---------------------------------------------------------------------
  // The planner as the source runs it
  // ---------------------------------------------------------------------

  /** The `map` over the expanded structure, threading `cumulativeDuration`. */
  method SinglePassShots(expanded: seq<Instance>, s: Settings) returns (shots: seq<Shot>)
    ensures shots == SinglePass(expanded, s)
  {
    var cumulativeDuration := 0;
    shots := [];
    var idx := 0;
    while idx < |expanded|
      invariant idx <= |expanded|
      invariant shots == SinglePass(expanded, s)[..idx]
      invariant cumulativeDuration == PlannedLength(expanded[..idx], s.clipDurationSec)
    {
      var segment := expanded[idx];
      var durationSec := ShotDuration(segment, s.clipDurationSec);
      var shot := Shot(idx + 1, ShotLabel(segment, idx), ShotPrompt(segment, idx, s), durationSec,
                       cumulativeDuration, ExtractLyricsExcerpt(s.lyrics, idx), None);
      cumulativeDuration := cumulativeDuration + durationSec;
      assert expanded[..idx + 1][..idx] == expanded[..idx];
      shots := shots + [shot];
      idx := idx + 1;
    }
  }

  /** The nested loop that clones the shot list `loopNeeded` times, each clone
      starting at the summed durations of the clones already pushed. */
  method LoopShots(shots: seq<Shot>, loopNeeded: nat) returns (looped: seq<Shot>)
    ensures looped == Looped(shots, loopNeeded)
  {
    looped := [];
    for i := 0 to loopNeeded
      invariant looped == Looped(shots, i)
    {
      looped := PushRepetition(shots, i, looped);
    }
  }

  /** The inner `shots.forEach`: repetition i pushed clone by clone, each
      clone starting at the summed durations of everything pushed so far. */
  method PushRepetition(shots: seq<Shot>, i: nat, before: seq<Shot>) returns (looped: seq<Shot>)
    requires before == Looped(shots, i)
    ensures looped == Looped(shots, i + 1)
  {
    looped := before;
    for k := 0 to |shots|
      invariant looped == before + Repetition(shots, i)[..k]
      invariant SumDurations(looped) == SumDurations(before) + SumDurations(shots[..k])
    {
      var clone := shots[k].(loop := Some(i + 1), startSec := SumDurations(looped));
      RepetitionSnoc(shots, i, k, SumDurations(looped));
      SumSnoc(looped, clone);
      SumPrefixStep(shots, k);
      looped := looped + [clone];
    }
    assert Repetition(shots, i)[..|shots|] == Repetition(shots, i);
  }

  // The clone pushed as element k of repetition i.
  lemma RepetitionSnoc(shots: seq<Shot>, i: nat, k: nat, start: nat)
    requires k < |shots| && start == SumDurations(Looped(shots, i)) + SumDurations(shots[..k])
    ensures Repetition(shots, i)[..k + 1]
      == Repetition(shots, i)[..k] + [shots[k].(loop := Some(i + 1), startSec := start)]
  {
    LoopedSize(shots, i);
    var r := Repetition(shots, i);
    var c := shots[k].(loop := Some(i + 1), startSec := start);
    assert r[k] == c;
    SnocPrefix(r, k);
  }

  lemma SnocPrefix(r: seq<Shot>, k: nat)
    requires k < |r|
    ensures r[..k + 1] == r[..k] + [r[k]]
  {
  }

  lemma SumSnoc(a: seq<Shot>, x: Shot)
    ensures SumDurations(a + [x]) == SumDurations(a) + x.durationSec
  {
    assert (a + [x])[..|a|] == a;
  }

  lemma SumPrefixStep(shots: seq<Shot>, k: nat)
    requires k < |shots|
    ensures SumDurations(shots[..k + 1]) == SumDurations(shots[..k]) + shots[k].durationSec
  {
    assert shots[..k + 1][..k] == shots[..k];
  }

  /** `planShots`, as written; divergent inputs are excluded. */
  method PlanShots(req: PlanRequest) returns (plan: Plan)
    requires Terminates(req)
    ensures plan == PlanOf(req)
  {
    var s := SettingsOf(req);
    var expanded := ExpandStructure(ChosenStructure(req.structure));
    var shots := SinglePassShots(expanded, s);
    var plannedDuration := TotalDuration(expanded);
    if plannedDuration < s.songDurationSec {
      var loopNeeded := CeilDiv(s.songDurationSec, plannedDuration);
      var looped := LoopShots(shots, loopNeeded);
      plan := Plan(Take(looped, TruncationLimit(s.songDurationSec, s.clipDurationSec)), SumDurations(looped));
    } else {
      plan := Plan(shots, plannedDuration);
    }
  }

  /** `planShots` with a guard against a zero planned duration. */
  method PlanShotsSafe(req: PlanRequest) returns (plan: Plan)
    ensures plan == SafePlanOf(req)
  {
    var s := SettingsOf(req);
    var expanded := ExpandStructure(ChosenStructure(req.structure));
    var shots := SinglePassShots(expanded, s);
    var plannedDuration := TotalDuration(expanded);
    if 0 < plannedDuration < s.songDurationSec {
      var loopNeeded := CeilDiv(s.songDurationSec, plannedDuration);
      var looped := LoopShots(shots, loopNeeded);
      plan := Plan(Take(looped, TruncationLimit(s.songDurationSec, s.clipDurationSec)), SumDurations(looped));
    } else {
      plan := Plan(shots, plannedDuration);
    }
  }
}
