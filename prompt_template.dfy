/** The prompt template engine (`buildPrompt`): a tool selector picks one of three fixed
    template literals, and every placeholder is filled with its field's value or, when that
    value is the empty string, with the field's fixed default. */
module PromptTemplate {
  import opened JsString

  datatype Tool = Coding | Image | Video

  /** The named inputs a template can refer to. `Topic` and `Context` appear in every
      template; the others belong to one tool each. */
  datatype Field =
    | Topic | Context
    | Lang | Framework | CodeType | Tone
    | Style | ImageModel | Size
    | ToolName | Duration | Mood | Movement

  /** The form values handed to the engine, one string per field. A missing property of the
      source's `input` object behaves like the empty string under `||`. */
  datatype PromptInput = PromptInput(
    topic: string, context: string,
    lang: string, framework: string, codeType: string, tone: string,
    style: string, model: string, size: string,
    toolName: string, duration: string, mood: string, movement: string)

  function Get(i: PromptInput, f: Field): string {
    match f
    case Topic => i.topic
    case Context => i.context
    case Lang => i.lang
    case Framework => i.framework
    case CodeType => i.codeType
    case Tone => i.tone
    case Style => i.style
    case ImageModel => i.model
    case Size => i.size
    case ToolName => i.toolName
    case Duration => i.duration
    case Mood => i.mood
    case Movement => i.movement
  }

  /** The input with one field replaced. */
  function With(i: PromptInput, f: Field, v: string): (j: PromptInput)
    ensures Get(j, f) == v
    ensures forall g :: g != f ==> Get(j, g) == Get(i, g)
  {
    match f
    case Topic => i.(topic := v)
    case Context => i.(context := v)
    case Lang => i.(lang := v)
    case Framework => i.(framework := v)
    case CodeType => i.(codeType := v)
    case Tone => i.(tone := v)
    case Style => i.(style := v)
    case ImageModel => i.(model := v)
    case Size => i.(size := v)
    case ToolName => i.(toolName := v)
    case Duration => i.(duration := v)
    case Mood => i.(mood := v)
    case Movement => i.(movement := v)
  }

  /** The value substituted when a field is empty. */
  function DefaultOf(f: Field): (d: string)
    ensures d != ""
  {
    match f
    case Topic => "—"
    case Context => "—"
    case Lang => "TypeScript"
    case Framework => "React"
    case CodeType => "Feature တည်ဆောက်"
    case Tone => "Professional"
    case Style => "Cinematic Realism"
    case ImageModel => "Midjourney"
    case Size => "1024x1024"
    case ToolName => "Sora / Runway / Pika"
    case Duration => "5-10s"
    case Mood => "Cinematic"
    case Movement => "Slow dolly-in"
  }

  /** What a placeholder shows: `input.f || default`. */
  function Resolved(i: PromptInput, f: Field): string {
    Or(Get(i, f), DefaultOf(f))
  }

  /** Evaluates the part of a template literal `s0${v0}s1${v1}...sn` from literal string `a`
      to literal string `b`, given its literal strings `ss` and the values `vs` its
      placeholders show. */
  function Fill(ss: seq<string>, vs: seq<string>, a: nat, b: nat): string
    requires |ss| == |vs| + 1 && a <= b <= |vs|
    decreases b - a
  {
    if a == b then ss[b] else ss[a] + vs[a] + Fill(ss, vs, a + 1, b)
  }

  /** The fields shown by the placeholders of each tool's template, in order. */
  function Holes(tool: Tool): seq<Field> {
    match tool
    case Coding => [Topic, CodeType, Lang, Framework, Tone, Context]
    case Image => [ImageModel, Topic, Style, Size, Context]
    case Video => [ToolName, Topic, Duration, Mood, Movement, Context]
  }

  /** The first line of each tool's prompt. */
  function Heading(tool: Tool): string {
    match tool
    case Coding => "သင်သည် အတွေ့အကြုံရှိတဲ့ Senior Software Engineer တစ်ယောက်အဖြစ် အလုပ်လုပ်ပါ။"
    case Image => "AI Image Prompt (မြန်မာ) — "
    case Video => "AI Video Prompt (မြန်မာ) — "
  }

  /** The fixed text after the final placeholder: a blank line, then the instruction list and the
      four-item "Output Format" list for coding, the three-item "Output:" list for image and
      for video. */
  function Footer(tool: Tool): string {
    "\n" + Lines(tool, 0)
  }

  /** How many lines the closing text after the blank line has. */
  function ClosingCount(tool: Tool): nat {
    match tool
    case Coding => 11
    case Image => 4
    case Video => 4
  }

  /** Line `k` of the closing text after the blank line. */
  function ClosingLine(tool: Tool, k: nat): string
    requires k < ClosingCount(tool)
  {
    match tool
    case Coding =>
      if k == 0 then "လုပ်ဆောင်ရမည့်အရာများ:"
      else if k == 1 then "1) Production-ready ဖြစ်အောင် တည်ဆောက်ပါ (clean code + error handling + edge cases ပါ)"
      else if k == 2 then "2) Folder/file structure ကို အကြံပြုပြီး အဓိက file တွေကို ပြည့်စုံအောင်ရေးပါ"
      else if k == 3 then "3) လိုအပ်ရင် tests (unit/integration) နဲ့ run/usage steps ထည့်ပါ"
      else if k == 4 then "4) Output ကို “တစ်ခုထဲ” အဖြစ် ရှင်းရှင်းလင်းလင်း ထုတ်ပါ (အဆင့်လိုက် + code block တွေတိတိကျကျ)"
      else if k == 5 then ""
      else if k == 6 then "နောက်ဆုံး Output Format:"
      else if k == 7 then "- ✅ Step-by-step plan"
      else if k == 8 then "- ✅ File tree"
      else if k == 9 then "- ✅ Full code (copy-paste အသုံးပြုလို့ရအောင်)"
      else "- ✅ မလိုအပ်တဲ့ ခေါင်းရှည်ရှည်ရှင်းလင်းချက် မပါစေ"
    case Image =>
      if k == 0 then "Output:"
      else if k == 1 then "- Lighting / camera / mood / composition ကို သေချာရေးပါ"
      else if k == 2 then "- Negative prompt (လိုအပ်ရင်) ထည့်ပေးပါ"
      else "- Final prompt ကို copy-paste လုပ်လို့ရအောင် တစ်ခုတည်းအဖြစ် ထုတ်ပါ"
    case Video =>
      if k == 0 then "Output:"
      else if k == 1 then "- Scene ကို shot-by-shot လေးနဲ့ ရေးပါ (လိုအပ်ရင်)"
      else if k == 2 then "- Visual style + lighting + sound ambience + pacing ပါအောင်ရေးပါ"
      else "- Final prompt ကို copy-paste လုပ်လို့ရအောင် တစ်ခုတည်းအဖြစ် ထုတ်ပါ"
  }

  /** The closing text from line `k` on, each line preceded by a line break. */
  function Lines(tool: Tool, k: nat): string
    requires k <= ClosingCount(tool)
    decreases ClosingCount(tool) - k
  {
    if k == ClosingCount(tool) then "" else "\n" + ClosingLine(tool, k) + Lines(tool, k + 1)
  }


  /** The label right before a field's placeholder in a tool's template. */
  function Label(tool: Tool, f: Field): string {
    match (tool, f)
    case (Coding, Topic) => "ပရောဂျက်/အလုပ်ခိုင်းချက်: "
    case (Coding, CodeType) => "Use Case / Title: "
    case (Coding, Lang) => "ဘာသာစကား: "
    case (Coding, Framework) => "Framework/Stack: "
    case (Coding, Tone) => "Tone: "
    case (Coding, Context) => "Context/လိုအပ်ချက်များ: "
    case (Image, ImageModel) => "AI Image Prompt (မြန်မာ) — "
    case (Image, Topic) => "Subject/အကြောင်းအရာ: "
    case (Image, Style) => "Style: "
    case (Image, Size) => "Size/Aspect: "
    case (Image, Context) => "Details/Context: "
    case (Video, ToolName) => "AI Video Prompt (မြန်မာ) — "
    case (Video, Topic) => "Scene/အခန်း: "
    case (Video, Duration) => "Duration: "
    case (Video, Mood) => "Mood: "
    case (Video, Movement) => "Camera movement: "
    case (Video, Context) => "Details/Context: "
    case _ => ""
  }

  /** What precedes the label of placeholder `k`: the coding template opens with its heading
      line and a blank line; the image and video templates open with their label-heading, put
      a blank line before the second label, and a single line break before every later one. */
  function Lead(tool: Tool, k: nat): string {
    if k == 0 then (if tool == Coding then Heading(tool) + "\n\n" else "")
    else if k == 1 && tool != Coding then "\n\n"
    else "\n"
  }

  /** The `k`-th literal string of each tool's template literal: up to the final placeholder,
      what precedes placeholder `k` and its label; after it, the footer. */
  function Piece(tool: Tool, k: nat): string
    requires k <= |Holes(tool)|
  {
    if k == |Holes(tool)| then Footer(tool) else Lead(tool, k) + Label(tool, Holes(tool)[k])
  }

  /** The literal strings of each tool's template literal. */
  function Strings(tool: Tool): (ss: seq<string>)
    ensures |ss| == |Holes(tool)| + 1
    ensures forall k :: 0 <= k < |ss| ==> ss[k] == Piece(tool, k)
  {
    seq(|Holes(tool)| + 1, k requires 0 <= k <= |Holes(tool)| => Piece(tool, k))
  }

  /** What each placeholder of the tool's template shows for `input`. */
  function Values(tool: Tool, input: PromptInput): (vs: seq<string>)
    ensures |vs| == |Holes(tool)|
    ensures forall k :: 0 <= k < |vs| ==> vs[k] == Resolved(input, Holes(tool)[k])
  {
    seq(|Holes(tool)|, k requires 0 <= k < |Holes(tool)| => Resolved(input, Holes(tool)[k]))
  }

  /** `buildPrompt(tool, input)`: `coding` and `image` pick their own template, every other
      tool the video one, and the chosen template literal is evaluated. */
  function BuildPrompt(tool: Tool, input: PromptInput): (r: string)
    ensures r != ""
  {
    var ss, vs := Strings(tool), Values(tool, input);
    FillCloses(ss, vs, 0, |vs|);
    FooterClosesTemplate(tool);
    Fill(ss, vs, 0, |vs|)
  }

  /** The fields a tool's template shows. */
  function ModeFields(tool: Tool): set<Field> {
    match tool
    case Coding => {Topic, CodeType, Lang, Framework, Tone, Context}
    case Image => {ImageModel, Topic, Style, Size, Context}
    case Video => {ToolName, Topic, Duration, Mood, Movement, Context}
  }

  /** Which placeholder shows a field, or `|Holes(tool)|` when the tool's template has none. */
  function SlotOf(tool: Tool, f: Field): (k: nat)
    ensures k <= |Holes(tool)|
  {
    match (tool, f)
    case (Coding, Topic) => 0
    case (Coding, CodeType) => 1
    case (Coding, Lang) => 2
    case (Coding, Framework) => 3
    case (Coding, Tone) => 4
    case (Coding, Context) => 5
    case (Image, ImageModel) => 0
    case (Image, Topic) => 1
    case (Image, Style) => 2
    case (Image, Size) => 3
    case (Image, Context) => 4
    case (Video, ToolName) => 0
    case (Video, Topic) => 1
    case (Video, Duration) => 2
    case (Video, Mood) => 3
    case (Video, Movement) => 4
    case (Video, Context) => 5
    case _ => |Holes(tool)|
  }

  predicate StartsWith(s: string, prefix: string) {
    |prefix| <= |s| && s[..|prefix|] == prefix
  }

  predicate EndsWith(s: string, suffix: string) {
    |suffix| <= |s| && s[|s| - |suffix|..] == suffix
  }

  lemma AppendStartsWith(s: string, t: string)
    ensures StartsWith(s + t, s)
  {
    assert (s + t)[..|s|] == s;
  }

  lemma AppendEndsWith(s: string, t: string)
    ensures EndsWith(s + t, t)
  {
    assert (s + t)[|s|..] == t;
  }

  lemma EndsWithTrans(s: string, t: string, u: string)
    requires EndsWith(s, t) && EndsWith(t, u)
    ensures EndsWith(s, u)
  {
    assert s[|s| - |u|..] == t[|t| - |u|..];
  }

  lemma StartsWithTrans(s: string, t: string, u: string)
    requires StartsWith(s, t) && StartsWith(t, u)
    ensures StartsWith(s, u)
  {
    assert s[..|u|] == t[..|u|];
  }

  // ---------------------------------------------------------------------------
  // Facts about template literals in general

  /** A filled part is the part before a placeholder, the placeholder, and the part after. */
  lemma {:induction false} FillSplit(ss: seq<string>, vs: seq<string>, a: nat, m: nat, b: nat)
    requires |ss| == |vs| + 1 && a <= m < b <= |vs|
    ensures Fill(ss, vs, a, b) == Fill(ss, vs, a, m) + vs[m] + Fill(ss, vs, m + 1, b)
    decreases m - a
  {
    if a < m {
      FillSplit(ss, vs, a + 1, m, b);
      var x, y, z := ss[a] + vs[a], Fill(ss, vs, a + 1, m), vs[m] + Fill(ss, vs, m + 1, b);
      assert x + (y + z) == (x + y) + z;
    }
  }

  /** Placeholders that show the same values between `a` and `b` fill that part alike. */
  lemma {:induction false} FillAgrees(ss: seq<string>, vs: seq<string>, ws: seq<string>, a: nat, b: nat)
    requires |ss| == |vs| + 1 && |vs| == |ws| && a <= b <= |vs|
    requires forall k :: a <= k < b ==> vs[k] == ws[k]
    ensures Fill(ss, vs, a, b) == Fill(ss, ws, a, b)
    decreases b - a
  {
    if a < b {
      FillAgrees(ss, vs, ws, a + 1, b);
    }
  }

  /** A filled part opens with its first literal string. */
  lemma FillOpens(ss: seq<string>, vs: seq<string>, a: nat, b: nat)
    requires |ss| == |vs| + 1 && a <= b <= |vs|
    ensures StartsWith(Fill(ss, vs, a, b), ss[a])
  {
    if a < b {
      var rest := vs[a] + Fill(ss, vs, a + 1, b);
      assert Fill(ss, vs, a, b) == ss[a] + rest;
      AppendStartsWith(ss[a], rest);
    }
  }

  /** A filled part closes with its last literal string. */
  lemma {:induction false} FillCloses(ss: seq<string>, vs: seq<string>, a: nat, b: nat)
    requires |ss| == |vs| + 1 && a <= b <= |vs|
    ensures EndsWith(Fill(ss, vs, a, b), ss[b])
    decreases b - a
  {
    if a < b {
      FillCloses(ss, vs, a + 1, b);
      var pre, rest := ss[a] + vs[a], Fill(ss, vs, a + 1, b);
      AppendEndsWith(pre, rest);
      EndsWithTrans(pre + rest, rest, ss[b]);
    }
  }

  // ---------------------------------------------------------------------------
  // Facts about the three prompt templates

  lemma HoleIsModeField(tool: Tool, k: nat)
    requires k < |Holes(tool)|
    ensures Holes(tool)[k] in ModeFields(tool) && SlotOf(tool, Holes(tool)[k]) == k
  {
  }

  lemma ModeFieldHasHole(tool: Tool, f: Field)
    requires f in ModeFields(tool)
    ensures SlotOf(tool, f) < |Holes(tool)| && Holes(tool)[SlotOf(tool, f)] == f
  {
  }

  /** Each tool's template shows each of its own fields in exactly one placeholder, and no
      field of another tool at all. */
  lemma TemplateSlots(tool: Tool, f: Field, k: nat)
    requires k < |Holes(tool)|
    ensures Holes(tool)[k] == f <==> f in ModeFields(tool) && k == SlotOf(tool, f)
  {
    HoleIsModeField(tool, k);
    if f in ModeFields(tool) {
      ModeFieldHasHole(tool, f);
    }
  }

  /** The literal string before each placeholder ends with the field's label. */
  lemma LabelBeforeSlot(tool: Tool, f: Field)
    requires f in ModeFields(tool)
    ensures SlotOf(tool, f) < |Holes(tool)|
    ensures EndsWith(Strings(tool)[SlotOf(tool, f)], Label(tool, f))
  {
    ModeFieldHasHole(tool, f);
    AppendEndsWith(Lead(tool, SlotOf(tool, f)), Label(tool, f));
  }

  lemma HeadingOpensTemplate(tool: Tool)
    ensures StartsWith(Strings(tool)[0], Heading(tool))
  {
    var first := Label(tool, Holes(tool)[0]);
    assert Strings(tool)[0] == Lead(tool, 0) + first;
    if tool == Coding {
      AppendStartsWith(Lead(tool, 0), first);
      AppendStartsWith(Heading(tool), "\n\n");
      StartsWithTrans(Strings(tool)[0], Lead(tool, 0), Heading(tool));
    } else {
      assert Strings(tool)[0] == first;
    }
  }

  lemma FooterClosesTemplate(tool: Tool)
    ensures Strings(tool)[|Holes(tool)|] == Footer(tool)
    ensures |Footer(tool)| > 0
  {
  }

  lemma PromptOpens(tool: Tool, input: PromptInput)
    ensures StartsWith(BuildPrompt(tool, input), Heading(tool))
  {
    FillOpens(Strings(tool), Values(tool, input), 0, |Holes(tool)|);
    HeadingOpensTemplate(tool);
    StartsWithTrans(BuildPrompt(tool, input), Strings(tool)[0], Heading(tool));
  }

  lemma PromptCloses(tool: Tool, input: PromptInput)
    ensures EndsWith(BuildPrompt(tool, input), Footer(tool))
  {
    FillCloses(Strings(tool), Values(tool, input), 0, |Holes(tool)|);
    FooterClosesTemplate(tool);
  }

  /** Every prompt opens with its tool's heading and ends with its tool's fixed footer,
      so it is never empty. */
  lemma PromptFrame(tool: Tool, input: PromptInput)
    ensures StartsWith(BuildPrompt(tool, input), Heading(tool))
    ensures EndsWith(BuildPrompt(tool, input), Footer(tool))
    ensures |BuildPrompt(tool, input)| >= |Footer(tool)| > 0
  {
    PromptOpens(tool, input);
    PromptCloses(tool, input);
    FooterClosesTemplate(tool);
  }

  /** The prompt text before the placeholder of one of the tool's own fields. */
  function Before(tool: Tool, input: PromptInput, f: Field): string {
    Fill(Strings(tool), Values(tool, input), 0, SlotOf(tool, f))
  }

  /** The prompt text after the placeholder of one of the tool's own fields. */
  function After(tool: Tool, input: PromptInput, f: Field): string {
    var m := SlotOf(tool, f);
    if m < |Holes(tool)| then Fill(Strings(tool), Values(tool, input), m + 1, |Holes(tool)|) else ""
  }

  lemma SlotSplits(tool: Tool, input: PromptInput, f: Field)
    requires f in ModeFields(tool)
    ensures BuildPrompt(tool, input) == Before(tool, input, f) + Resolved(input, f) + After(tool, input, f)
  {
    ModeFieldHasHole(tool, f);
    var vs, m := Values(tool, input), SlotOf(tool, f);
    FillSplit(Strings(tool), vs, 0, m, |vs|);
    assert vs[m] == Resolved(input, f);
  }

  lemma SlotLabelled(tool: Tool, input: PromptInput, f: Field)
    requires f in ModeFields(tool)
    ensures EndsWith(Before(tool, input, f), Label(tool, f))
  {
    LabelBeforeSlot(tool, f);
    var ss, m := Strings(tool), SlotOf(tool, f);
    FillCloses(ss, Values(tool, input), 0, m);
    EndsWithTrans(Before(tool, input, f), ss[m], Label(tool, f));
  }

  /** Changing a field leaves the text between two other placeholders as it was. */
  lemma BeforeKept(tool: Tool, input: PromptInput, f: Field, v: string)
    requires f in ModeFields(tool)
    ensures Before(tool, With(input, f, v), f) == Before(tool, input, f)
  {
    var hs, m := Holes(tool), SlotOf(tool, f);
    var vs, ws := Values(tool, input), Values(tool, With(input, f, v));
    forall k | 0 <= k < m ensures ws[k] == vs[k] {
      HoleIsModeField(tool, k);
    }
    FillAgrees(Strings(tool), ws, vs, 0, m);
  }

  lemma AfterKept(tool: Tool, input: PromptInput, f: Field, v: string)
    requires f in ModeFields(tool)
    ensures After(tool, With(input, f, v), f) == After(tool, input, f)
  {
    var hs, m := Holes(tool), SlotOf(tool, f);
    var vs, ws := Values(tool, input), Values(tool, With(input, f, v));
    ModeFieldHasHole(tool, f);
    forall k | m + 1 <= k < |hs| ensures ws[k] == vs[k] {
      HoleIsModeField(tool, k);
    }
    FillAgrees(Strings(tool), ws, vs, m + 1, |hs|);
  }

  /** Each field of the tool's own template sits in one slot, right after its label: the prompt
      is `before + (value || default) + after`, and changing that field changes only the slot. */
  lemma PromptSlot(tool: Tool, input: PromptInput, f: Field, v: string)
    requires f in ModeFields(tool)
    ensures EndsWith(Before(tool, input, f), Label(tool, f))
    ensures BuildPrompt(tool, input) == Before(tool, input, f) + Resolved(input, f) + After(tool, input, f)
    ensures BuildPrompt(tool, With(input, f, v)) ==
            Before(tool, input, f) + Or(v, DefaultOf(f)) + After(tool, input, f)
  {
    SlotLabelled(tool, input, f);
    SlotSplits(tool, input, f);
    SlotSplits(tool, With(input, f, v), f);
    BeforeKept(tool, input, f, v);
    AfterKept(tool, input, f, v);
  }

  /** Changing one of the tool's own fields changes the prompt exactly when it changes what the
      placeholder shows: the empty string and the default are interchangeable, and any other
      value, whitespace-only included, is shown as it is. */
  lemma FieldSensitivity(tool: Tool, input: PromptInput, f: Field, v1: string, v2: string)
    requires f in ModeFields(tool)
    ensures BuildPrompt(tool, With(input, f, v1)) == BuildPrompt(tool, With(input, f, v2))
            <==> Or(v1, DefaultOf(f)) == Or(v2, DefaultOf(f))
  {
    PromptSlot(tool, input, f, v1);
    PromptSlot(tool, input, f, v2);
    var pre, post := Before(tool, input, f), After(tool, input, f);
    var x, y := Or(v1, DefaultOf(f)), Or(v2, DefaultOf(f));
    if pre + x + post == pre + y + post {
      MiddleCancels(pre, x, y, post);
    }
  }

  lemma MiddleCancels(pre: string, x: string, y: string, post: string)
    requires pre + x + post == pre + y + post
    ensures x == y
  {
    assert |x| == |y|;
    assert x == (pre + x + post)[|pre|..|pre| + |x|];
    assert y == (pre + y + post)[|pre|..|pre| + |y|];
  }

  /** The prompt depends only on what the tool's own placeholders show: fields of the other
      tools never matter, and an empty field is the same as its default. */
  lemma OnlyModeFieldsMatter(tool: Tool, i: PromptInput, j: PromptInput)
    requires forall f :: f in ModeFields(tool) ==> Resolved(i, f) == Resolved(j, f)
    ensures BuildPrompt(tool, i) == BuildPrompt(tool, j)
  {
    var vs, ws := Values(tool, i), Values(tool, j);
    forall k | 0 <= k < |Holes(tool)| ensures vs[k] == ws[k] {
      HoleIsModeField(tool, k);
    }
    FillAgrees(Strings(tool), vs, ws, 0, |Holes(tool)|);
  }

  /** A field of another tool never changes the prompt, whatever it is set to. */
  lemma OtherToolsFieldsIgnored(tool: Tool, input: PromptInput, f: Field, v: string)
    requires f !in ModeFields(tool)
    ensures BuildPrompt(tool, With(input, f, v)) == BuildPrompt(tool, input)
  {
    OnlyModeFieldsMatter(tool, With(input, f, v), input);
  }

  /** Every template shows the topic and the context after their labels: verbatim when they
      are non-empty, and as `—` when they are empty. */
  lemma SharedFieldShown(tool: Tool, input: PromptInput, f: Field)
    requires f == Topic || f == Context
    ensures f in ModeFields(tool)
    ensures EndsWith(Before(tool, input, f), Label(tool, f))
    ensures BuildPrompt(tool, input) ==
            Before(tool, input, f) + (if Get(input, f) == "" then "—" else Get(input, f)) + After(tool, input, f)
  {
    SlotLabelled(tool, input, f);
    SlotSplits(tool, input, f);
  }

  /** No placeholder ever shows the empty string: every default is non-empty. */
  lemma NoBlankSlot(input: PromptInput, f: Field)
    ensures Resolved(input, f) != ""
    ensures Get(input, f) == "" ==> Resolved(input, f) == DefaultOf(f)
    ensures Get(input, f) != "" ==> Resolved(input, f) == Get(input, f)
  {
  }

  /** An empty field renders as its default. */
  lemma EmptyFieldTakesDefault(tool: Tool, input: PromptInput, f: Field)
    requires Get(input, f) == ""
    ensures BuildPrompt(tool, input) == BuildPrompt(tool, With(input, f, DefaultOf(f)))
  {
    OnlyModeFieldsMatter(tool, input, With(input, f, DefaultOf(f)));
  }
}
