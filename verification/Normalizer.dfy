/**
  The streaming chat normaliser and collector (agent-runtime/src/rpc-model-provider.ts).

  Both work choice by choice in stream order, so their specifications are folds over the choices
  of all chunks.
*/
module StreamNormalizer {
  import opened Prelude
  import opened Text
  import opened OrderedMap
  import opened Concatenation

  /** A JSON field: missing, a string, or a value of another type. */
  datatype Field = Absent | Str(s: string) | Other

  datatype ToolValue =
    | NotTool
    | Tool(index: Option<int>, id: Field, kind: Field, name: Field, arguments: Field)

  datatype Delta = Delta(
    content: Field,
    reasoning: Field,
    reasoningContent: Field,
    refusal: Field,
    toolCalls: seq<ToolValue>)

  datatype ChoiceValue =
    | NotChoice
    | Choice(index: Option<int>, delta: Delta, finish: Field)

  /** `header` stands for the chunk's id, model, creation time and usage. */
  datatype Chunk = Chunk(header: string, choices: seq<ChoiceValue>)

  const NO_DELTA := Delta(Absent, Absent, Absent, Absent, [])
  const TOOL_CALLS := Str("tool_calls")

  /** The arguments a tool call gets in place of none. */
  function EmptyObject(): string {
    "{}"
  }

  function TextOf(f: Field): string {
    if f.Str? then f.s else ""
  }

  function IndexOr0(index: Option<int>): int {
    if index.Some? then index.value else 0
  }

  function ToolKey(t: ToolValue): int {
    if t.Tool? then IndexOr0(t.index) else 0
  }

  function ChoiceKey(c: ChoiceValue): int {
    if c.Choice? then IndexOr0(c.index) else 0
  }

  // ----- The collector -----

  datatype ToolAcc = ToolAcc(id: string, kind: string, name: string, arguments: string)

  datatype ChoiceAcc = ChoiceAcc(
    content: string,
    reasoning: string,
    refusal: string,
    finish: Option<string>,
    tools: seq<Slot<ToolAcc>>)

  const EMPTY_TOOL := ToolAcc("", "function", "", "")
  const EMPTY_CHOICE := ChoiceAcc("", "", "", None, [])

  function AddTool(a: ToolAcc, t: ToolValue): ToolAcc {
    if t.NotTool? then a
    else ToolAcc(if t.id.Str? then t.id.s else a.id,
                 if t.kind.Str? then t.kind.s else a.kind,
                 a.name + TextOf(t.name),
                 a.arguments + TextOf(t.arguments))
  }

  function CollectTools(m: seq<Slot<ToolAcc>>, tools: seq<ToolValue>): seq<Slot<ToolAcc>> {
    if tools == [] then m
    else
      var before := CollectTools(m, tools[..|tools| - 1]);
      var t := tools[|tools| - 1];
      Put(before, ToolKey(t), AddTool(Get(before, ToolKey(t), EMPTY_TOOL), t))
  }

  /** A string `reasoning` wins over `reasoning_content`. */
  function ReasoningOf(d: Delta): string {
    if d.reasoning.Str? then d.reasoning.s else TextOf(d.reasoningContent)
  }

  function AddChoice(a: ChoiceAcc, c: ChoiceValue): ChoiceAcc {
    if c.NotChoice? then a
    else ChoiceAcc(a.content + TextOf(c.delta.content),
                   a.reasoning + ReasoningOf(c.delta),
                   a.refusal + TextOf(c.delta.refusal),
                   if c.finish.Str? then Some(c.finish.s) else a.finish,
                   CollectTools(a.tools, c.delta.toolCalls))
  }

  function CollectChoice(m: seq<Slot<ChoiceAcc>>, c: ChoiceValue): seq<Slot<ChoiceAcc>> {
    Put(m, ChoiceKey(c), AddChoice(Get(m, ChoiceKey(c), EMPTY_CHOICE), c))
  }

  function Collect(choices: seq<ChoiceValue>): seq<Slot<ChoiceAcc>> {
    if choices == [] then []
    else CollectChoice(Collect(choices[..|choices| - 1]), choices[|choices| - 1])
  }

  function Flat(chunks: seq<Chunk>): seq<ChoiceValue> {
    if chunks == [] then [] else Flat(chunks[..|chunks| - 1]) + chunks[|chunks| - 1].choices
  }

  /** The choices of a stream are those of its chunks, one after another. */
  lemma {:induction false} FlatConcatenates(a: seq<Chunk>, b: seq<Chunk>)
    ensures Flat(a + b) == Flat(a) + Flat(b)
    ensures forall c :: Flat([c]) == c.choices
  {
    forall c: Chunk ensures Flat([c]) == c.choices {
      assert [c][..0] == [];
    }
    if b == [] {
      assert a + b == a;
    } else {
      FlatConcatenates(a, b[..|b| - 1]);
      assert (a + b)[..|a + b| - 1] == a + b[..|b| - 1];
    }
  }

  // ----- What collecting yields -----

  /** A choice without a numeric index, or that is no record, counts as choice 0. */
  predicate HasIndex(c: ChoiceValue, i: int) {
    match c
    case NotChoice => i == 0
    case Choice(index, _, _) => if index.Some? then index.value == i else i == 0
  }

  predicate ToolHasIndex(t: ToolValue, k: int) {
    match t
    case NotTool => k == 0
    case Tool(index, _, _, _, _) => if index.Some? then index.value == k else k == 0
  }

  /** One field of every value with an index, in stream order. */
  function Fields(choices: seq<ChoiceValue>, i: int, field: ChoiceValue -> Field): seq<Field> {
    if choices == [] then []
    else
      var last := choices[|choices| - 1];
      Fields(choices[..|choices| - 1], i, field) + (if HasIndex(last, i) then [field(last)] else [])
  }

  function ToolFields(tools: seq<ToolValue>, k: int, field: ToolValue -> Field): seq<Field> {
    if tools == [] then []
    else
      var last := tools[|tools| - 1];
      ToolFields(tools[..|tools| - 1], k, field) + (if ToolHasIndex(last, k) then [field(last)] else [])
  }

  /** The tool entries of every value with an index. */
  function ToolsOf(choices: seq<ChoiceValue>, i: int): seq<ToolValue> {
    if choices == [] then []
    else
      var last := choices[|choices| - 1];
      ToolsOf(choices[..|choices| - 1], i)
      + (if last.Choice? && HasIndex(last, i) then last.delta.toolCalls else [])
  }

  function ContentField(c: ChoiceValue): Field {
    if c.Choice? then c.delta.content else Absent
  }

  function RefusalField(c: ChoiceValue): Field {
    if c.Choice? then c.delta.refusal else Absent
  }

  function FinishField(c: ChoiceValue): Field {
    if c.Choice? then c.finish else Absent
  }

  /** Provider-native reasoning counts where there is no string `reasoning`. */
  function ReasoningField(c: ChoiceValue): Field {
    if c.NotChoice? then Absent
    else match c.delta.reasoning
         case Str(_) => c.delta.reasoning
         case _ => c.delta.reasoningContent
  }

  function IdField(t: ToolValue): Field {
    if t.Tool? then t.id else Absent
  }

  function KindField(t: ToolValue): Field {
    if t.Tool? then t.kind else Absent
  }

  function NameField(t: ToolValue): Field {
    if t.Tool? then t.name else Absent
  }

  function ArgumentsField(t: ToolValue): Field {
    if t.Tool? then t.arguments else Absent
  }

  /** All the strings among some fields, one after another. */
  function Strings(fields: seq<Field>): string {
    if fields == [] then ""
    else
      Strings(fields[..|fields| - 1])
      + (match fields[|fields| - 1] case Str(s) => s case _ => "")
  }

  /** The last string among some fields. */
  function LastString(fields: seq<Field>): Option<string> {
    if fields == [] then None
    else match fields[|fields| - 1]
         case Str(s) => Some(s)
         case _ => LastString(fields[..|fields| - 1])
  }

  function OrElse(s: Option<string>, default: string): string {
    if s.Some? then s.value else default
  }

  lemma StringsAppend(fields: seq<Field>, f: Field)
    ensures Strings(fields + [f]) == Strings(fields) + (match f case Str(s) => s case _ => "")
    ensures LastString(fields + [f]) == match f case Str(s) => Some(s) case _ => LastString(fields)
  {
    assert (fields + [f])[..|fields + [f]| - 1] == fields;
  }

  lemma FieldsStep(choices: seq<ChoiceValue>, i: int, field: ChoiceValue -> Field)
    requires choices != []
    ensures var init, last := choices[..|choices| - 1], choices[|choices| - 1];
            && (HasIndex(last, i) ==>
                  && Strings(Fields(choices, i, field))
                     == Strings(Fields(init, i, field)) + (match field(last) case Str(s) => s case _ => "")
                  && LastString(Fields(choices, i, field))
                     == (match field(last) case Str(s) => Some(s) case _ => LastString(Fields(init, i, field))))
            && (!HasIndex(last, i) ==> Fields(choices, i, field) == Fields(init, i, field))
  {
    var init, last := choices[..|choices| - 1], choices[|choices| - 1];
    StringsAppend(Fields(init, i, field), field(last));
  }

  lemma ToolFieldsStep(tools: seq<ToolValue>, k: int, field: ToolValue -> Field)
    requires tools != []
    ensures var init, last := tools[..|tools| - 1], tools[|tools| - 1];
            && (ToolHasIndex(last, k) ==>
                  && Strings(ToolFields(tools, k, field))
                     == Strings(ToolFields(init, k, field)) + (match field(last) case Str(s) => s case _ => "")
                  && LastString(ToolFields(tools, k, field))
                     == (match field(last) case Str(s) => Some(s) case _ => LastString(ToolFields(init, k, field))))
            && (!ToolHasIndex(last, k) ==> ToolFields(tools, k, field) == ToolFields(init, k, field))
  {
    var init, last := tools[..|tools| - 1], tools[|tools| - 1];
    StringsAppend(ToolFields(init, k, field), field(last));
  }

  /** The tools collected for a choice are those of all its entries taken together. */
  lemma {:induction false} CollectedToolList(choices: seq<ChoiceValue>, i: int)
    ensures Get(Collect(choices), i, EMPTY_CHOICE).tools == CollectTools([], ToolsOf(choices, i))
  {
    if choices != [] {
      var init, last := choices[..|choices| - 1], choices[|choices| - 1];
      CollectedToolList(init, i);
      var before := Collect(init);
      GetPut(before, ChoiceKey(last), AddChoice(Get(before, ChoiceKey(last), EMPTY_CHOICE), last), i, EMPTY_CHOICE);
      hide Collect, CollectTools, Get;
      assert ToolsOf(init, i) + [] == ToolsOf(init, i);
      if last.Choice? {
        CollectToolsConcat([], ToolsOf(init, i), last.delta.toolCalls);
      }
    }
  }

  /** A tool reads as the entries of an index say: the strings of its name and of its arguments one after
      another, and the last string id and type or the defaults. */
  predicate ReadsAs(t: ToolAcc, tools: seq<ToolValue>, k: int) {
    && t.name == Strings(ToolFields(tools, k, NameField))
    && t.arguments == Strings(ToolFields(tools, k, ArgumentsField))
    && t.id == OrElse(LastString(ToolFields(tools, k, IdField)), "")
    && t.kind == OrElse(LastString(ToolFields(tools, k, KindField)), "function")
  }

  lemma ToolReadsOn(t: ToolAcc, tools: seq<ToolValue>, k: int)
    requires tools != [] && ReadsAs(t, tools[..|tools| - 1], k)
    ensures var last := tools[|tools| - 1];
            ReadsAs(if ToolHasIndex(last, k) then AddTool(t, last) else t, tools, k)
  {
    ToolFieldsStep(tools, k, NameField);
    ToolFieldsStep(tools, k, ArgumentsField);
    ToolFieldsStep(tools, k, IdField);
    ToolFieldsStep(tools, k, KindField);
    hide Strings, LastString, ToolFields, ToolHasIndex;
  }

  lemma ToolIndexed(t: ToolValue, k: int)
    ensures ToolHasIndex(t, k) <==> ToolKey(t) == k
  {
  }

  lemma {:induction false} CollectedToolTexts(tools: seq<ToolValue>, k: int)
    ensures ReadsAs(Get(CollectTools([], tools), k, EMPTY_TOOL), tools, k)
    ensures Has(CollectTools([], tools), k) <==> exists t :: t in tools && ToolHasIndex(t, k)
  {
    if tools != [] {
      var init, last := tools[..|tools| - 1], tools[|tools| - 1];
      CollectedToolTexts(init, k);
      var before := CollectTools([], init);
      GetPut(before, ToolKey(last), AddTool(Get(before, ToolKey(last), EMPTY_TOOL), last), k, EMPTY_TOOL);
      assert CollectTools([], tools) == Put(before, ToolKey(last), AddTool(Get(before, ToolKey(last), EMPTY_TOOL), last));
      hide *;
      assert tools == init + [last];
      ToolIndexed(last, k);
      ToolReadsOn(Get(before, k, EMPTY_TOOL), tools, k);
    }
  }

  /** A choice reads as the values of an index say: the string contents, refusals and reasoning one after
      another, and the last string finish reason. */
  predicate ChoiceReadsAs(a: ChoiceAcc, choices: seq<ChoiceValue>, i: int) {
    && a.content == Strings(Fields(choices, i, ContentField))
    && a.refusal == Strings(Fields(choices, i, RefusalField))
    && a.reasoning == Strings(Fields(choices, i, ReasoningField))
    && a.finish == LastString(Fields(choices, i, FinishField))
  }

  lemma ChoiceReadsOn(a: ChoiceAcc, choices: seq<ChoiceValue>, i: int)
    requires choices != [] && ChoiceReadsAs(a, choices[..|choices| - 1], i)
    ensures var last := choices[|choices| - 1];
            ChoiceReadsAs(if HasIndex(last, i) then AddChoice(a, last) else a, choices, i)
  {
    hide Strings, LastString, Fields, HasIndex, AddChoice, ContentField, RefusalField, ReasoningField, FinishField;
    FieldsStep(choices, i, ContentField);
    FieldsStep(choices, i, RefusalField);
    FieldsStep(choices, i, ReasoningField);
    FieldsStep(choices, i, FinishField);
    AddedTexts(a, choices[|choices| - 1]);
  }

  lemma AddedTexts(a: ChoiceAcc, c: ChoiceValue)
    ensures var b := AddChoice(a, c);
            && b.content == a.content + (match ContentField(c) case Str(s) => s case _ => "")
            && b.refusal == a.refusal + (match RefusalField(c) case Str(s) => s case _ => "")
            && b.reasoning == a.reasoning + (match ReasoningField(c) case Str(s) => s case _ => "")
            && b.finish == (match FinishField(c) case Str(s) => Some(s) case _ => a.finish)
  {
    hide CollectTools;
  }

  lemma Indexed(c: ChoiceValue, i: int)
    ensures HasIndex(c, i) <==> ChoiceKey(c) == i
  {
  }

  /** What collecting yields for a choice index, said of the stream itself. */
  lemma {:induction false} CollectedTexts(choices: seq<ChoiceValue>, i: int)
    ensures ChoiceReadsAs(Get(Collect(choices), i, EMPTY_CHOICE), choices, i)
    ensures Has(Collect(choices), i) <==> exists c :: c in choices && HasIndex(c, i)
  {
    hide *;
    if choices == [] {
      NothingCollected(i);
    } else {
      var init, last := choices[..|choices| - 1], choices[|choices| - 1];
      CollectedTexts(init, i);
      var before := Collect(init);
      LastCollected(choices);
      GetPut(before, ChoiceKey(last), AddChoice(Get(before, ChoiceKey(last), EMPTY_CHOICE), last), i, EMPTY_CHOICE);
      assert choices == init + [last];
      Indexed(last, i);
      ChoiceReadsOn(Get(before, i, EMPTY_CHOICE), choices, i);
    }
  }

  lemma NothingCollected(i: int)
    ensures ChoiceReadsAs(Get(Collect([]), i, EMPTY_CHOICE), [], i) && !Has(Collect([]), i)
  {
  }

  lemma LastCollected(choices: seq<ChoiceValue>)
    requires choices != []
    ensures var before, last := Collect(choices[..|choices| - 1]), choices[|choices| - 1];
            Collect(choices)
            == Put(before, ChoiceKey(last), AddChoice(Get(before, ChoiceKey(last), EMPTY_CHOICE), last))
  {
  }

  /** And for a tool index within that choice. */
  lemma CollectedTool(choices: seq<ChoiceValue>, i: int, k: int)
    ensures var tools := Get(Collect(choices), i, EMPTY_CHOICE).tools;
            && ReadsAs(Get(tools, k, EMPTY_TOOL), ToolsOf(choices, i), k)
            && (Has(tools, k) <==> exists t :: t in ToolsOf(choices, i) && ToolHasIndex(t, k))
  {
    CollectedToolList(choices, i);
    CollectedToolTexts(ToolsOf(choices, i), k);
    hide *;
  }

  // ----- The normalisers -----

  /** Provider-native reasoning replaces `reasoning`. */
  function NormalizeReasoning(c: ChoiceValue): ChoiceValue {
    if c.NotChoice? || TextOf(c.delta.reasoningContent) == "" then c
    else c.(delta := c.delta.(reasoningContent := Absent, reasoning := c.delta.reasoningContent))
  }

  /** For one choice, whether each tool seen so far has had a non-blank arguments piece. */
  type Flags = seq<Slot<bool>>

  /** The flags of every choice. */
  type Seen = seq<Slot<Flags>>

  predicate HasArguments(t: ToolValue) {
    t.Tool? && !IsBlank(TextOf(t.arguments))
  }

  function NoteTools(flags: Flags, tools: seq<ToolValue>): Flags {
    if tools == [] then flags
    else
      var before := NoteTools(flags, tools[..|tools| - 1]);
      var t := tools[|tools| - 1];
      Put(before, ToolKey(t), Get(before, ToolKey(t), false) || HasArguments(t))
  }

  function Missing(flags: Flags): seq<int> {
    if flags == [] then []
    else (if flags[0].value then [] else [flags[0].key]) + Missing(flags[1..])
  }

  function PatchTool(t: ToolValue, missing: seq<int>): ToolValue {
    if t.Tool? && ToolKey(t) in missing then t.(arguments := Str(EmptyObject())) else t
  }

  function PatchTools(tools: seq<ToolValue>, missing: seq<int>): seq<ToolValue> {
    if tools == [] then []
    else PatchTools(tools[..|tools| - 1], missing) + [PatchTool(tools[|tools| - 1], missing)]
  }

  /** How many entries of a chunk carry a tool's index. */
  function Entries(tools: seq<ToolValue>, k: int): nat {
    if tools == [] then 0
    else
      var t := tools[|tools| - 1];
      Entries(tools[..|tools| - 1], k) + (if t.Tool? && ToolKey(t) == k then 1 else 0)
  }

  /** An entry of its own for every missing tool the chunk does not mention. */
  function Appended(tools: seq<ToolValue>, missing: seq<int>): seq<ToolValue> {
    if missing == [] then []
    else
      var k := missing[|missing| - 1];
      Appended(tools, missing[..|missing| - 1])
      + (if Entries(tools, k) > 0 then [] else [Tool(Some(k), Absent, Absent, Absent, Str(EmptyObject()))])
  }

  function MarkAll(flags: Flags, missing: seq<int>): Flags {
    if missing == [] then flags
    else Put(MarkAll(flags, missing[..|missing| - 1]), missing[|missing| - 1], true)
  }

  function NormalizedTools(flags: Flags, tools: seq<ToolValue>): seq<ToolValue> {
    var missing := Missing(NoteTools(flags, tools));
    PatchTools(tools, missing) + Appended(tools, missing)
  }

  function FlagsAfter(flags: Flags, c: ChoiceValue): Flags {
    if c.NotChoice? then flags
    else
      var noted := NoteTools(flags, c.delta.toolCalls);
      if c.finish == TOOL_CALLS then MarkAll(noted, Missing(noted)) else noted
  }

  function NormalizeTools(flags: Flags, c: ChoiceValue): ChoiceValue {
    if c.NotChoice? || c.finish != TOOL_CALLS || Missing(NoteTools(flags, c.delta.toolCalls)) == [] then c
    else c.(delta := c.delta.(toolCalls := NormalizedTools(flags, c.delta.toolCalls)))
  }

  function SeenAfter(seen: Seen, c: ChoiceValue): Seen {
    if c.NotChoice? then seen
    else Put(seen, ChoiceKey(c), FlagsAfter(Get(seen, ChoiceKey(c), []), c))
  }

  function NormalizeChoice(seen: Seen, c: ChoiceValue): ChoiceValue {
    NormalizeTools(Get(seen, ChoiceKey(c), []), NormalizeReasoning(c))
  }

  function SeenIn(choices: seq<ChoiceValue>): Seen {
    if choices == [] then []
    else SeenAfter(SeenIn(choices[..|choices| - 1]), choices[|choices| - 1])
  }

  /** What the normalised stream carries. */
  function Normalized(choices: seq<ChoiceValue>): seq<ChoiceValue> {
    if choices == [] then []
    else
      var init := choices[..|choices| - 1];
      Normalized(init) + [NormalizeChoice(SeenIn(init), choices[|choices| - 1])]
  }

  // ----- Closed forms of the tool folds -----

  /** What a tool's accumulator becomes after the entries of a chunk. */
  function FoldTool(a: ToolAcc, tools: seq<ToolValue>, k: int): ToolAcc {
    if tools == [] then a
    else
      var before := FoldTool(a, tools[..|tools| - 1], k);
      if ToolKey(tools[|tools| - 1]) == k then AddTool(before, tools[|tools| - 1]) else before
  }

  function Mentions(tools: seq<ToolValue>, k: int): bool {
    tools != [] && (ToolKey(tools[|tools| - 1]) == k || Mentions(tools[..|tools| - 1], k))
  }

  /** The argument text a chunk carries for one tool. */
  function Pieces(tools: seq<ToolValue>, k: int): string {
    if tools == [] then ""
    else
      var before := Pieces(tools[..|tools| - 1], k);
      var t := tools[|tools| - 1];
      if t.Tool? && ToolKey(t) == k then before + TextOf(t.arguments) else before
  }

  function Repeat(s: string, n: nat): string {
    if n == 0 then "" else Repeat(s, n - 1) + s
  }

  lemma {:induction false} CollectToolsAt(m: seq<Slot<ToolAcc>>, tools: seq<ToolValue>, k: int)
    ensures Get(CollectTools(m, tools), k, EMPTY_TOOL) == FoldTool(Get(m, k, EMPTY_TOOL), tools, k)
    ensures Has(CollectTools(m, tools), k) <==> Has(m, k) || Mentions(tools, k)
  {
    if tools != [] {
      var init, t := tools[..|tools| - 1], tools[|tools| - 1];
      CollectToolsAt(m, init, k);
      var before := CollectTools(m, init);
      GetPut(before, ToolKey(t), AddTool(Get(before, ToolKey(t), EMPTY_TOOL), t), k, EMPTY_TOOL);
    }
  }

  lemma {:induction false} NoteToolsAt(flags: Flags, tools: seq<ToolValue>, k: int)
    ensures Get(NoteTools(flags, tools), k, false) == (Get(flags, k, false) || !IsBlank(Pieces(tools, k)))
    ensures Has(NoteTools(flags, tools), k) <==> Has(flags, k) || Mentions(tools, k)
  {
    if tools != [] {
      var init, t := tools[..|tools| - 1], tools[|tools| - 1];
      NoteToolsAt(flags, init, k);
      var before := NoteTools(flags, init);
      GetPut(before, ToolKey(t), Get(before, ToolKey(t), false) || HasArguments(t), k, false);
      if t.Tool? && ToolKey(t) == k {
        BlankConcat(Pieces(init, k), TextOf(t.arguments));
      }
    }
  }

  lemma {:induction false} FoldToolArguments(a: ToolAcc, tools: seq<ToolValue>, k: int)
    ensures FoldTool(a, tools, k).arguments == a.arguments + Pieces(tools, k)
  {
    if tools != [] {
      FoldToolArguments(a, tools[..|tools| - 1], k);
    }
  }

  predicate SameButArguments(a: ToolAcc, b: ToolAcc) {
    a.id == b.id && a.kind == b.kind && a.name == b.name
  }

  lemma UnfoldTool(a: ToolAcc, tools: seq<ToolValue>, k: int)
    requires tools != []
    ensures var init, t := tools[..|tools| - 1], tools[|tools| - 1];
            && FoldTool(a, tools, k)
               == (if ToolKey(t) == k then AddTool(FoldTool(a, init, k), t) else FoldTool(a, init, k))
            && Pieces(tools, k)
               == (if t.Tool? && ToolKey(t) == k then Pieces(init, k) + TextOf(t.arguments) else Pieces(init, k))
            && Mentions(tools, k) == (ToolKey(t) == k || Mentions(init, k))
  {
  }

  lemma PatchLast(tools: seq<ToolValue>, missing: seq<int>)
    requires tools != []
    ensures var patched := PatchTools(tools, missing);
            && patched != []
            && patched[..|patched| - 1] == PatchTools(tools[..|tools| - 1], missing)
            && patched[|patched| - 1] == PatchTool(tools[|tools| - 1], missing)
  {
  }

  lemma {:induction false} PatchMentions(tools: seq<ToolValue>, missing: seq<int>, k: int)
    ensures Mentions(PatchTools(tools, missing), k) <==> Mentions(tools, k)
  {
    if tools != [] {
      PatchMentions(tools[..|tools| - 1], missing, k);
      PatchLast(tools, missing);
      UnfoldTool(EMPTY_TOOL, tools, k);
      UnfoldTool(EMPTY_TOOL, PatchTools(tools, missing), k);
      hide Pieces, Mentions, PatchTools;
    }
  }

  lemma {:induction false} PatchPieces(tools: seq<ToolValue>, missing: seq<int>, k: int)
    ensures Pieces(PatchTools(tools, missing), k)
            == if k in missing then Repeat(EmptyObject(), Entries(tools, k)) else Pieces(tools, k)
  {
    if tools != [] {
      var init := tools[..|tools| - 1];
      PatchPieces(init, missing, k);
      PatchPiecesStep(tools, missing, k);
    }
  }

  lemma EntriesLast(tools: seq<ToolValue>, k: int)
    requires tools != []
    ensures var init, t := tools[..|tools| - 1], tools[|tools| - 1];
            && Entries(tools, k) == Entries(init, k) + (if t.Tool? && ToolKey(t) == k then 1 else 0)
            && Repeat(EmptyObject(), Entries(init, k) + 1) == Repeat(EmptyObject(), Entries(init, k)) + EmptyObject()
  {
    hide EmptyObject;
  }

  lemma PatchPiecesStep(tools: seq<ToolValue>, missing: seq<int>, k: int)
    requires tools != []
    requires var init := tools[..|tools| - 1];
             Pieces(PatchTools(init, missing), k)
             == if k in missing then Repeat(EmptyObject(), Entries(init, k)) else Pieces(init, k)
    ensures Pieces(PatchTools(tools, missing), k)
            == if k in missing then Repeat(EmptyObject(), Entries(tools, k)) else Pieces(tools, k)
  {
    hide Repeat, Entries, Pieces, Mentions, PatchTools, FoldTool, EmptyObject;
    PatchLast(tools, missing);
    EntriesLast(tools, k);
    UnfoldTool(EMPTY_TOOL, tools, k);
    UnfoldTool(EMPTY_TOOL, PatchTools(tools, missing), k);
  }

  lemma {:induction false} PatchSameButArguments(
      a: ToolAcc, b: ToolAcc, tools: seq<ToolValue>, missing: seq<int>, k: int)
    requires SameButArguments(a, b)
    ensures SameButArguments(FoldTool(a, tools, k), FoldTool(b, PatchTools(tools, missing), k))
  {
    if tools != [] {
      PatchSameButArguments(a, b, tools[..|tools| - 1], missing, k);
      PatchLast(tools, missing);
      UnfoldTool(a, tools, k);
      UnfoldTool(b, PatchTools(tools, missing), k);
      hide FoldTool, PatchTools, Pieces, Mentions;
    }
  }

  lemma PatchFold(a: ToolAcc, b: ToolAcc, tools: seq<ToolValue>, missing: seq<int>, k: int)
    requires SameButArguments(a, b)
    ensures SameButArguments(FoldTool(a, tools, k), FoldTool(b, PatchTools(tools, missing), k))
    ensures Pieces(PatchTools(tools, missing), k)
            == if k in missing then Repeat(EmptyObject(), Entries(tools, k)) else Pieces(tools, k)
    ensures Mentions(PatchTools(tools, missing), k) <==> Mentions(tools, k)
  {
    PatchSameButArguments(a, b, tools, missing, k);
    PatchMentions(tools, missing, k);
    PatchPieces(tools, missing, k);
    hide *;
  }

  lemma {:induction false} FoldConcat(a: ToolAcc, x: seq<ToolValue>, y: seq<ToolValue>, k: int)
    ensures FoldTool(a, x + y, k) == FoldTool(FoldTool(a, x, k), y, k)
    ensures Pieces(x + y, k) == Pieces(x, k) + Pieces(y, k)
    ensures Mentions(x + y, k) <==> Mentions(x, k) || Mentions(y, k)
  {
    if y == [] {
      assert x + y == x;
    } else {
      FoldConcat(a, x, y[..|y| - 1], k);
      FoldConcatStep(a, x, y, k);
    }
  }

  lemma FoldConcatStep(a: ToolAcc, x: seq<ToolValue>, y: seq<ToolValue>, k: int)
    requires y != []
    requires var init := y[..|y| - 1];
             && FoldTool(a, x + init, k) == FoldTool(FoldTool(a, x, k), init, k)
             && Pieces(x + init, k) == Pieces(x, k) + Pieces(init, k)
             && (Mentions(x + init, k) <==> Mentions(x, k) || Mentions(init, k))
    ensures FoldTool(a, x + y, k) == FoldTool(FoldTool(a, x, k), y, k)
    ensures Pieces(x + y, k) == Pieces(x, k) + Pieces(y, k)
    ensures Mentions(x + y, k) <==> Mentions(x, k) || Mentions(y, k)
  {
    hide FoldTool, Pieces, Mentions, AddTool;
    assert (x + y)[..|x + y| - 1] == x + y[..|y| - 1];
    UnfoldTool(a, x + y, k);
    UnfoldTool(FoldTool(a, x, k), y, k);
  }

  predicate DistinctKeys<V>(m: seq<Slot<V>>) {
    m == [] || (!Has(m[1..], m[0].key) && DistinctKeys(m[1..]))
  }

  lemma {:induction false} PutDistinct<V>(m: seq<Slot<V>>, k: int, v: V)
    requires DistinctKeys(m)
    ensures DistinctKeys(Put(m, k, v))
  {
    if m != [] && m[0].key != k {
      PutDistinct(m[1..], k, v);
      assert Put(m, k, v)[1..] == Put(m[1..], k, v);
      GetPut(m[1..], k, v, m[0].key, v);
    } else if m != [] {
      assert Put(m, k, v)[1..] == m[1..];
    }
  }

  lemma {:induction false} NoteDistinct(flags: Flags, tools: seq<ToolValue>)
    requires DistinctKeys(flags)
    ensures DistinctKeys(NoteTools(flags, tools))
  {
    if tools != [] {
      var init, t := tools[..|tools| - 1], tools[|tools| - 1];
      NoteDistinct(flags, init);
      PutDistinct(NoteTools(flags, init), ToolKey(t), Get(NoteTools(flags, init), ToolKey(t), false) || HasArguments(t));
    }
  }

  lemma {:induction false} MissingAre(flags: Flags, k: int)
    requires DistinctKeys(flags)
    ensures k in Missing(flags) <==> Has(flags, k) && !Get(flags, k, false)
    ensures forall i, j :: 0 <= i < j < |Missing(flags)| ==> Missing(flags)[i] != Missing(flags)[j]
  {
    if flags != [] {
      MissingAre(flags[1..], k);
      MissingAre(flags[1..], flags[0].key);
    }
  }

  lemma {:induction false} MarkAllAt(flags: Flags, missing: seq<int>, k: int)
    ensures Get(MarkAll(flags, missing), k, false) == (k in missing || Get(flags, k, false))
    ensures Has(MarkAll(flags, missing), k) <==> k in missing || Has(flags, k)
    ensures DistinctKeys(flags) ==> DistinctKeys(MarkAll(flags, missing))
  {
    if missing != [] {
      var init, last := missing[..|missing| - 1], missing[|missing| - 1];
      assert missing == init + [last];
      MarkAllAt(flags, init, k);
      GetPut(MarkAll(flags, init), last, true, k, false);
      if DistinctKeys(flags) {
        PutDistinct(MarkAll(flags, init), last, true);
      }
    }
  }

  lemma AppendedLast(tools: seq<ToolValue>, missing: seq<int>)
    requires missing != []
    ensures var init, last := missing[..|missing| - 1], missing[|missing| - 1];
            var before, all := Appended(tools, init), Appended(tools, missing);
            if Entries(tools, last) > 0 then all == before
            else
              && all == before + [Tool(Some(last), Absent, Absent, Absent, Str(EmptyObject()))]
              && all[..|all| - 1] == before
  {
  }

  lemma {:induction false} AppendedSameButArguments(a: ToolAcc, tools: seq<ToolValue>, missing: seq<int>, k: int)
    ensures SameButArguments(FoldTool(a, Appended(tools, missing), k), a)
    ensures Mentions(Appended(tools, missing), k) ==> k in missing
  {
    if missing != [] {
      hide FoldTool, Pieces, Mentions, Appended, Entries, EmptyObject;
      var init, last := missing[..|missing| - 1], missing[|missing| - 1];
      AppendedSameButArguments(a, tools, init, k);
      AppendedLast(tools, missing);
      SplitMember(missing);
      if Entries(tools, last) == 0 {
        UnfoldTool(a, Appended(tools, missing), k);
      }
    }
  }

  lemma SplitMember(missing: seq<int>)
    requires missing != []
    ensures missing == missing[..|missing| - 1] + [missing[|missing| - 1]]
  {
  }

  lemma {:induction false} AppendedPieces(tools: seq<ToolValue>, missing: seq<int>, k: int)
    requires forall i, j :: 0 <= i < j < |missing| ==> missing[i] != missing[j]
    ensures Pieces(Appended(tools, missing), k)
            == if k in missing && Entries(tools, k) == 0 then EmptyObject() else ""
  {
    if missing != [] {
      hide FoldTool, Pieces, Mentions, Appended, Entries, EmptyObject;
      var init, last := missing[..|missing| - 1], missing[|missing| - 1];
      AppendedPieces(tools, init, k);
      AppendedLast(tools, missing);
      SplitMember(missing);
      assert last !in init;
      if Entries(tools, last) == 0 {
        UnfoldTool(EMPTY_TOOL, Appended(tools, missing), k);
      }
    }
  }

  function Max1(n: nat): nat {
    if n == 0 then 1 else n
  }

  /** At a finishing chunk a tool that never had arguments gets one empty object per entry of the
      chunk, or one if the chunk does not mention it; every other tool keeps its text. */
  lemma NormalizedToolsFold(a: ToolAcc, b: ToolAcc, flags: Flags, tools: seq<ToolValue>, k: int)
    requires SameButArguments(a, b) && DistinctKeys(flags)
    ensures SameButArguments(FoldTool(a, tools, k), FoldTool(b, NormalizedTools(flags, tools), k))
    ensures FoldTool(b, NormalizedTools(flags, tools), k).arguments
            == b.arguments + (if k in Missing(NoteTools(flags, tools)) then Repeat(EmptyObject(), Max1(Entries(tools, k)))
                              else Pieces(tools, k))
  {
    hide FoldTool, Pieces, Mentions, Repeat, Appended, PatchTools, Missing, NoteTools, Entries, NormalizedTools,
         EmptyObject, AddTool;
    var missing := Missing(NoteTools(flags, tools));
    NoteDistinct(flags, tools);
    MissingAre(NoteTools(flags, tools), k);
    var patched, extra := PatchTools(tools, missing), Appended(tools, missing);
    NormalizedToolsAre(flags, tools);
    RepeatOnce(EmptyObject());
    PatchFold(a, b, tools, missing, k);
    AppendedSameButArguments(FoldTool(b, patched, k), tools, missing, k);
    AppendedPieces(tools, missing, k);
    FoldConcat(b, patched, extra, k);
    FoldToolArguments(b, patched + extra, k);
  }

  lemma NormalizedToolsAre(flags: Flags, tools: seq<ToolValue>)
    ensures var missing := Missing(NoteTools(flags, tools));
            NormalizedTools(flags, tools) == PatchTools(tools, missing) + Appended(tools, missing)
  {
  }

  lemma RepeatOnce(s: string)
    ensures Repeat(s, 0) + s == s && Repeat(s, 1) == s
    ensures forall n: nat :: Repeat(s, n) + "" == Repeat(s, n)
  {
  }

  // ----- Order of the collected tools -----

  lemma {:induction false} PatchKeepsKeys(
      m: seq<Slot<ToolAcc>>, n: seq<Slot<ToolAcc>>, tools: seq<ToolValue>, missing: seq<int>)
    requires Keys(m) == Keys(n)
    ensures Keys(CollectTools(m, tools)) == Keys(CollectTools(n, PatchTools(tools, missing)))
  {
    if tools != [] {
      var init, t := tools[..|tools| - 1], tools[|tools| - 1];
      PatchKeepsKeys(m, n, init, missing);
      var patched := PatchTools(tools, missing);
      assert patched[..|patched| - 1] == PatchTools(init, missing);
      var x, y := CollectTools(m, init), CollectTools(n, PatchTools(init, missing));
      KeysPut(x, ToolKey(t), AddTool(Get(x, ToolKey(t), EMPTY_TOOL), t));
      KeysPut(y, ToolKey(t), AddTool(Get(y, ToolKey(t), EMPTY_TOOL), PatchTool(t, missing)));
    }
  }

  lemma {:induction false} KnownKeepKeys(m: seq<Slot<ToolAcc>>, tools: seq<ToolValue>)
    requires forall t :: t in tools ==> Has(m, ToolKey(t))
    ensures Keys(CollectTools(m, tools)) == Keys(m)
  {
    if tools != [] {
      var init, t := tools[..|tools| - 1], tools[|tools| - 1];
      assert forall x :: x in init ==> x in tools;
      assert t in tools;
      KnownKeepKeys(m, init);
      var before := CollectTools(m, init);
      HasKeys(m, ToolKey(t));
      KeysPut(before, ToolKey(t), AddTool(Get(before, ToolKey(t), EMPTY_TOOL), t));
    }
  }

  lemma {:induction false} CollectToolsConcat(m: seq<Slot<ToolAcc>>, x: seq<ToolValue>, y: seq<ToolValue>)
    ensures CollectTools(m, x + y) == CollectTools(CollectTools(m, x), y)
  {
    if y == [] {
      assert x + y == x;
    } else {
      CollectToolsConcat(m, x, y[..|y| - 1]);
      assert (x + y)[..|x + y| - 1] == x + y[..|y| - 1];
    }
  }

  lemma {:induction false} AppendedKeys(tools: seq<ToolValue>, missing: seq<int>, t: ToolValue)
    requires t in Appended(tools, missing)
    ensures ToolKey(t) in missing
  {
    var init, last := missing[..|missing| - 1], missing[|missing| - 1];
    assert missing == init + [last];
    if t in Appended(tools, init) {
      AppendedKeys(tools, init, t);
    }
  }

  /** The patched chunk introduces no tool and reorders none. */
  lemma NormalizedKeepsKeys(
      m: seq<Slot<ToolAcc>>, n: seq<Slot<ToolAcc>>, flags: Flags, tools: seq<ToolValue>)
    requires Keys(m) == Keys(n) && DistinctKeys(flags)
    requires forall k :: Has(flags, k) <==> Has(m, k)
    ensures Keys(CollectTools(m, tools)) == Keys(CollectTools(n, NormalizedTools(flags, tools)))
  {
    var missing := Missing(NoteTools(flags, tools));
    var patched, extra := PatchTools(tools, missing), Appended(tools, missing);
    PatchKeepsKeys(m, n, tools, missing);
    CollectToolsConcat(n, patched, extra);
    var mid := CollectTools(n, patched);
    NoteDistinct(flags, tools);
    forall t | t in extra ensures Has(mid, ToolKey(t)) {
      var k := ToolKey(t);
      AppendedKeys(tools, missing, t);
      MissingAre(NoteTools(flags, tools), k);
      NoteToolsAt(flags, tools, k);
      CollectToolsAt(m, tools, k);
      HasKeys(CollectTools(m, tools), k);
      HasKeys(mid, k);
    }
    KnownKeepKeys(mid, extra);
  }

  // ----- Collecting raw and normalised streams in lockstep -----

  /** Until a tool has real or filled-in arguments nothing has been changed; from then on its
      normalised text is not blank. */
  predicate ArgumentsRel(raw: string, norm: string, hasArguments: bool) {
    if hasArguments then !IsBlank(norm) else norm == raw && IsBlank(raw)
  }

  ghost predicate ToolRel(a: ToolAcc, b: ToolAcc, hasArguments: bool) {
    SameButArguments(a, b) && ArgumentsRel(a.arguments, b.arguments, hasArguments)
  }

  ghost predicate ToolsRel(raw: seq<Slot<ToolAcc>>, norm: seq<Slot<ToolAcc>>, flags: Flags) {
    && Keys(raw) == Keys(norm)
    && DistinctKeys(flags)
    && (forall k :: Has(flags, k) <==> Has(raw, k))
    && (forall k :: ToolRel(Get(raw, k, EMPTY_TOOL), Get(norm, k, EMPTY_TOOL), Get(flags, k, false)))
  }

  ghost predicate ChoiceRel(a: ChoiceAcc, b: ChoiceAcc, flags: Flags) {
    && a.content == b.content && a.refusal == b.refusal && a.finish == b.finish
    && ToolsRel(a.tools, b.tools, flags)
  }

  lemma ArgumentsGrow(raw: string, norm: string, flag: bool, pieces: string)
    requires ArgumentsRel(raw, norm, flag)
    ensures ArgumentsRel(raw + pieces, norm + pieces, flag || !IsBlank(pieces))
  {
    BlankConcat(raw, pieces);
    BlankConcat(norm, pieces);
  }

  lemma ArgumentsFilled(raw: string, norm: string, pieces: string, n: nat)
    requires n > 0
    ensures ArgumentsRel(raw + pieces, norm + Repeat(EmptyObject(), n), true)
  {
    BlankConcat(norm, Repeat(EmptyObject(), n));
    RepeatIsNotBlank(n);
  }

  lemma RepeatIsNotBlank(n: nat)
    requires n > 0
    ensures !IsBlank(Repeat(EmptyObject(), n)) && Repeat(EmptyObject(), n) != ""
  {
    BlankConcat(Repeat(EmptyObject(), n - 1), EmptyObject());
    assert !IsWhitespace(EmptyObject()[0]) && !IsBlank(EmptyObject());
  }

  lemma ToolsGrow(raw: seq<Slot<ToolAcc>>, norm: seq<Slot<ToolAcc>>, flags: Flags, tools: seq<ToolValue>)
    requires ToolsRel(raw, norm, flags)
    ensures ToolsRel(CollectTools(raw, tools), CollectTools(norm, tools), NoteTools(flags, tools))
  {
    var r, n, f := CollectTools(raw, tools), CollectTools(norm, tools), NoteTools(flags, tools);
    PatchNothing(tools);
    PatchKeepsKeys(raw, norm, tools, []);
    NoteDistinct(flags, tools);
    forall k
      ensures ToolRel(Get(r, k, EMPTY_TOOL), Get(n, k, EMPTY_TOOL), Get(f, k, false))
      ensures Has(f, k) <==> Has(r, k)
    {
      CollectToolsAt(raw, tools, k);
      CollectToolsAt(norm, tools, k);
      NoteToolsAt(flags, tools, k);
      var a, b := Get(raw, k, EMPTY_TOOL), Get(norm, k, EMPTY_TOOL);
      PatchFold(a, b, tools, [], k);
      FoldToolArguments(a, tools, k);
      FoldToolArguments(b, tools, k);
      assert ToolRel(a, b, Get(flags, k, false));
      ArgumentsGrow(a.arguments, b.arguments, Get(flags, k, false), Pieces(tools, k));
    }
  }

  lemma {:induction false} PatchNothing(tools: seq<ToolValue>)
    ensures PatchTools(tools, []) == tools
  {
    if tools != [] {
      PatchNothing(tools[..|tools| - 1]);
    }
  }

  lemma ToolsFilled(raw: seq<Slot<ToolAcc>>, norm: seq<Slot<ToolAcc>>, flags: Flags, tools: seq<ToolValue>)
    requires ToolsRel(raw, norm, flags)
    ensures var noted := NoteTools(flags, tools);
            ToolsRel(CollectTools(raw, tools), CollectTools(norm, NormalizedTools(flags, tools)),
                     MarkAll(noted, Missing(noted)))
  {
    var patched := NormalizedTools(flags, tools);
    var noted := NoteTools(flags, tools);
    var missing := Missing(noted);
    var r, n, f := CollectTools(raw, tools), CollectTools(norm, patched), MarkAll(noted, missing);
    NormalizedKeepsKeys(raw, norm, flags, tools);
    NoteDistinct(flags, tools);
    forall k
      ensures ToolRel(Get(r, k, EMPTY_TOOL), Get(n, k, EMPTY_TOOL), Get(f, k, false))
      ensures Has(f, k) <==> Has(r, k)
    {
      FilledAt(raw, norm, flags, tools, k);
    }
    MarkAllAt(noted, missing, 0);
  }

  lemma FilledAt(raw: seq<Slot<ToolAcc>>, norm: seq<Slot<ToolAcc>>, flags: Flags, tools: seq<ToolValue>, k: int)
    requires ToolsRel(raw, norm, flags)
    ensures var noted := NoteTools(flags, tools);
            var f := MarkAll(noted, Missing(noted));
            && ToolRel(Get(CollectTools(raw, tools), k, EMPTY_TOOL),
                       Get(CollectTools(norm, NormalizedTools(flags, tools)), k, EMPTY_TOOL), Get(f, k, false))
            && (Has(f, k) <==> Has(CollectTools(raw, tools), k))
  {
    var noted := NoteTools(flags, tools);
    var missing := Missing(noted);
    var a, b, flag := Get(raw, k, EMPTY_TOOL), Get(norm, k, EMPTY_TOOL), Get(flags, k, false);
    assert ToolRel(a, b, flag) && (Has(flags, k) <==> Has(raw, k));
    CollectToolsAt(raw, tools, k);
    CollectToolsAt(norm, NormalizedTools(flags, tools), k);
    NoteToolsAt(flags, tools, k);
    NoteDistinct(flags, tools);
    MissingAre(noted, k);
    MarkAllAt(noted, missing, k);
    NormalizedToolsFold(a, b, flags, tools, k);
    FoldToolArguments(a, tools, k);
    if k in missing {
      ArgumentsFilled(a.arguments, b.arguments, Pieces(tools, k), Max1(Entries(tools, k)));
    } else {
      ArgumentsGrow(a.arguments, b.arguments, flag, Pieces(tools, k));
    }
  }

  lemma ChoiceStep(a: ChoiceAcc, b: ChoiceAcc, flags: Flags, c: ChoiceValue)
    requires ChoiceRel(a, b, flags)
    ensures ChoiceRel(AddChoice(a, c), AddChoice(b, NormalizeTools(flags, NormalizeReasoning(c))), FlagsAfter(flags, c))
  {
    if c.Choice? {
      var tools := c.delta.toolCalls;
      var noted := NoteTools(flags, tools);
      if c.finish != TOOL_CALLS {
        ToolsGrow(a.tools, b.tools, flags, tools);
      } else if Missing(noted) == [] {
        ToolsGrow(a.tools, b.tools, flags, tools);
        assert MarkAll(noted, []) == noted;
      } else {
        ToolsFilled(a.tools, b.tools, flags, tools);
      }
    }
  }

  ghost predicate Lockstep(raw: seq<Slot<ChoiceAcc>>, norm: seq<Slot<ChoiceAcc>>, seen: Seen) {
    && Keys(raw) == Keys(norm)
    && forall i :: ChoiceRel(Get(raw, i, EMPTY_CHOICE), Get(norm, i, EMPTY_CHOICE), Get(seen, i, []))
  }

  lemma LockstepStart()
    ensures Lockstep([], [], [])
  {
    assert ToolRel(EMPTY_TOOL, EMPTY_TOOL, false);
  }

  lemma LockstepChoice(raw: seq<Slot<ChoiceAcc>>, norm: seq<Slot<ChoiceAcc>>, seen: Seen, c: ChoiceValue)
    requires Lockstep(raw, norm, seen)
    ensures Lockstep(CollectChoice(raw, c), CollectChoice(norm, NormalizeChoice(seen, c)), SeenAfter(seen, c))
  {
    var key := ChoiceKey(c);
    var a, b, flags := Get(raw, key, EMPTY_CHOICE), Get(norm, key, EMPTY_CHOICE), Get(seen, key, []);
    var d := NormalizeChoice(seen, c);
    assert ChoiceKey(d) == key;
    KeysPut(raw, key, AddChoice(a, c));
    KeysPut(norm, key, AddChoice(b, d));
    assert ChoiceRel(a, b, flags);
    ChoiceStep(a, b, flags, c);
    hide ChoiceRel, AddChoice, FlagsAfter, NormalizeTools;
    forall i
      ensures ChoiceRel(Get(CollectChoice(raw, c), i, EMPTY_CHOICE), Get(CollectChoice(norm, d), i, EMPTY_CHOICE),
                        Get(SeenAfter(seen, c), i, []))
    {
      GetPut(raw, key, AddChoice(a, c), i, EMPTY_CHOICE);
      GetPut(norm, key, AddChoice(b, d), i, EMPTY_CHOICE);
      if c.Choice? {
        GetPut(seen, key, FlagsAfter(flags, c), i, []);
      } else {
        NotChoiceFlags(flags, c);
      }
      assert ChoiceRel(Get(raw, i, EMPTY_CHOICE), Get(norm, i, EMPTY_CHOICE), Get(seen, i, []));
    }
  }

  lemma NotChoiceFlags(flags: Flags, c: ChoiceValue)
    requires c.NotChoice?
    ensures FlagsAfter(flags, c) == flags
  {
  }

  lemma {:induction false} LockstepStream(choices: seq<ChoiceValue>)
    ensures Lockstep(Collect(choices), Collect(Normalized(choices)), SeenIn(choices))
  {
    if choices == [] {
      LockstepStart();
    } else {
      var init, c := choices[..|choices| - 1], choices[|choices| - 1];
      LockstepStream(init);
      LockstepChoice(Collect(init), Collect(Normalized(init)), SeenIn(init), c);
      var all := Normalized(choices);
      assert all[..|all| - 1] == Normalized(init);
    }
  }

  // ----- What the collected message keeps -----

  function ChoiceAt(choices: seq<ChoiceValue>, i: int): ChoiceAcc {
    Get(Collect(choices), i, EMPTY_CHOICE)
  }

  function ToolAt(choices: seq<ChoiceValue>, i: int, k: int): ToolAcc {
    Get(ChoiceAt(choices, i).tools, k, EMPTY_TOOL)
  }

  function FlagAt(choices: seq<ChoiceValue>, i: int, k: int): bool {
    Get(Get(SeenIn(choices), i, []), k, false)
  }

  /** The chunk at `n` finishes choice `i` with tool calls while its named tool `k` has had nothing but
      blank argument pieces so far: the normaliser fills the tool in. */
  predicate FillsAt(choices: seq<ChoiceValue>, n: nat, i: int, k: int)
    requires n < |choices|
  {
    && choices[n].Choice? && ChoiceKey(choices[n]) == i && choices[n].finish == TOOL_CALLS
    && Has(ChoiceAt(choices[..n + 1], i).tools, k)
    && IsBlank(ToolAt(choices[..n + 1], i, k).arguments)
  }

  ghost predicate Filled(choices: seq<ChoiceValue>, i: int, k: int) {
    exists n :: 0 <= n < |choices| && FillsAt(choices, n, i, k)
  }

  predicate FirstFill(choices: seq<ChoiceValue>, n: nat, i: int, k: int)
    requires n < |choices|
  {
    FillsAt(choices, n, i, k) && forall m :: 0 <= m < n ==> !FillsAt(choices, m, i, k)
  }

  /** The raw argument text with what the filling chunk `n` carried replaced by empty objects. */
  function FilledText(choices: seq<ChoiceValue>, n: nat, i: int, k: int): string
    requires n < |choices| && choices[n].Choice?
    requires |ToolAt(choices[..n + 1], i, k).arguments| <= |ToolAt(choices, i, k).arguments|
  {
    ToolAt(choices[..n], i, k).arguments
    + Repeat(EmptyObject(), Max1(Entries(choices[n].delta.toolCalls, k)))
    + ToolAt(choices, i, k).arguments[|ToolAt(choices[..n + 1], i, k).arguments|..]
  }

  /** What one choice value does to a tool: on the raw side it adds its pieces, on the normalised side
      it adds them too unless it finishes the choice and the tool still lacks arguments. */
  lemma ArgumentsStep(init: seq<ChoiceValue>, c: ChoiceValue, i: int, k: int)
    ensures var all := init + [c];
            var x, y := ToolAt(init, i, k).arguments, ToolAt(Normalized(init), i, k).arguments;
            if c.Choice? && ChoiceKey(c) == i then
              var pieces := Pieces(c.delta.toolCalls, k);
              var finishes := c.finish == TOOL_CALLS && Has(ChoiceAt(all, i).tools, k);
              && ToolAt(all, i, k).arguments == x + pieces
              && ToolAt(Normalized(all), i, k).arguments
                 == y + (if finishes && !FlagAt(init, i, k) && IsBlank(pieces)
                         then Repeat(EmptyObject(), Max1(Entries(c.delta.toolCalls, k))) else pieces)
              && FlagAt(all, i, k) == (FlagAt(init, i, k) || !IsBlank(pieces) || finishes)
            else
              && ToolAt(all, i, k) == ToolAt(init, i, k) && ToolAt(Normalized(all), i, k) == ToolAt(Normalized(init), i, k)
              && FlagAt(all, i, k) == FlagAt(init, i, k)
  {
    var all, key := init + [c], ChoiceKey(c);
    assert all[..|all| - 1] == init;
    LockstepStream(init);
    var raw, norm, flags := ChoiceAt(init, key), ChoiceAt(Normalized(init), key), Get(SeenIn(init), key, []);
    assert ChoiceRel(raw, norm, flags);
    NormalizedLast(init, c);
    var d := NormalizeChoice(SeenIn(init), c);
    GetPut(Collect(init), key, AddChoice(raw, c), i, EMPTY_CHOICE);
    GetPut(Collect(Normalized(init)), key, AddChoice(norm, d), i, EMPTY_CHOICE);
    if c.Choice? {
      GetPut(SeenIn(init), key, FlagsAfter(flags, c), i, []);
      ToolArgumentsStep(raw, norm, flags, c, k);
    }
    hide AddChoice, FlagsAfter, NormalizeTools, Lockstep, ChoiceRel;
  }

  lemma ToolArgumentsStep(raw: ChoiceAcc, norm: ChoiceAcc, flags: Flags, c: ChoiceValue, k: int)
    requires c.Choice? && ChoiceRel(raw, norm, flags)
    ensures var after, afterNorm := AddChoice(raw, c), AddChoice(norm, NormalizeTools(flags, NormalizeReasoning(c)));
            var pieces := Pieces(c.delta.toolCalls, k);
            var finishes := c.finish == TOOL_CALLS && Has(after.tools, k);
            && Get(after.tools, k, EMPTY_TOOL).arguments == Get(raw.tools, k, EMPTY_TOOL).arguments + pieces
            && Get(afterNorm.tools, k, EMPTY_TOOL).arguments
               == Get(norm.tools, k, EMPTY_TOOL).arguments
                  + (if finishes && !Get(flags, k, false) && IsBlank(pieces)
                     then Repeat(EmptyObject(), Max1(Entries(c.delta.toolCalls, k))) else pieces)
            && Get(FlagsAfter(flags, c), k, false) == (Get(flags, k, false) || !IsBlank(pieces) || finishes)
  {
    var tools := c.delta.toolCalls;
    var noted := NoteTools(flags, tools);
    var d := NormalizeTools(flags, NormalizeReasoning(c));
    var a, b := Get(raw.tools, k, EMPTY_TOOL), Get(norm.tools, k, EMPTY_TOOL);
    assert ToolRel(a, b, Get(flags, k, false)) && (Has(flags, k) <==> Has(raw.tools, k));
    NoteToolsAt(flags, tools, k);
    NoteDistinct(flags, tools);
    MissingAre(noted, k);
    MarkAllAt(noted, Missing(noted), k);
    CollectToolsAt(raw.tools, tools, k);
    CollectToolsAt(norm.tools, d.delta.toolCalls, k);
    FoldToolArguments(a, tools, k);
    FoldToolArguments(b, tools, k);
    NormalizedToolsFold(a, b, flags, tools, k);
  }

  lemma FillsAtPrefix(init: seq<ChoiceValue>, c: ChoiceValue, n: nat, i: int, k: int)
    requires n < |init|
    ensures FillsAt(init + [c], n, i, k) <==> FillsAt(init, n, i, k)
  {
    assert (init + [c])[..n + 1] == init[..n + 1];
  }

  lemma FilledStep(init: seq<ChoiceValue>, c: ChoiceValue, i: int, k: int)
    ensures var all := init + [c]; Filled(all, i, k) <==> Filled(init, i, k) || FillsAt(all, |init|, i, k)
  {
    hide FillsAt;
    var all := init + [c];
    forall n | 0 <= n < |init| ensures FillsAt(all, n, i, k) <==> FillsAt(init, n, i, k) {
      FillsAtPrefix(init, c, n, i, k);
    }
  }

  lemma FillsAtLast(init: seq<ChoiceValue>, c: ChoiceValue, i: int, k: int)
    ensures var all := init + [c];
            FillsAt(all, |init|, i, k) <==>
              && c.Choice? && ChoiceKey(c) == i && c.finish == TOOL_CALLS
              && Has(ChoiceAt(all, i).tools, k) && IsBlank(ToolAt(all, i, k).arguments)
  {
    hide ToolAt, ChoiceAt, IsBlank;
    var all := init + [c];
    assert all[..|init| + 1] == all;
  }

  /** Whether a tool counts as having arguments: some piece was not blank, or it has been filled in. */
  lemma FlagMeans(init: seq<ChoiceValue>, c: ChoiceValue, i: int, k: int)
    requires FlagAt(init, i, k) <==> !IsBlank(ToolAt(init, i, k).arguments) || Filled(init, i, k)
    ensures var all := init + [c];
            FlagAt(all, i, k) <==> !IsBlank(ToolAt(all, i, k).arguments) || Filled(all, i, k)
  {
    hide *;
    ArgumentsStep(init, c, i, k);
    FilledStep(init, c, i, k);
    FillsAtLast(init, c, i, k);
    if c.Choice? && ChoiceKey(c) == i {
      BlankConcat(ToolAt(init, i, k).arguments, Pieces(c.delta.toolCalls, k));
    }
  }

  /** The argument text is untouched when nothing was filled, and otherwise exactly the filled text of
      the first filling chunk. */
  lemma {:induction false} ArgumentsExactly(choices: seq<ChoiceValue>, i: int, k: int)
    ensures FlagAt(choices, i, k) <==> !IsBlank(ToolAt(choices, i, k).arguments) || Filled(choices, i, k)
    ensures !Filled(choices, i, k) ==> ToolAt(Normalized(choices), i, k).arguments == ToolAt(choices, i, k).arguments
    ensures forall n :: 0 <= n < |choices| && FirstFill(choices, n, i, k) ==>
              && ToolAt(choices[..n + 1], i, k).arguments <= ToolAt(choices, i, k).arguments
              && ToolAt(Normalized(choices), i, k).arguments == FilledText(choices, n, i, k)
  {
    if choices != [] {
      var init, c := choices[..|choices| - 1], choices[|choices| - 1];
      assert choices == init + [c];
      ArgumentsExactly(init, i, k);
      FlagMeans(init, c, i, k);
      FilledStep(init, c, i, k);
      forall n | 0 <= n < |choices| && FirstFill(choices, n, i, k)
        ensures ToolAt(choices[..n + 1], i, k).arguments <= ToolAt(choices, i, k).arguments
        ensures ToolAt(Normalized(choices), i, k).arguments == FilledText(choices, n, i, k)
      {
        FilledTextStep(init, c, n, i, k);
      }
      ArgumentsStep(init, c, i, k);
      hide ToolAt, ChoiceAt, FlagAt, Normalized, Pieces, Entries, Repeat, FilledText;
      if c.Choice? && ChoiceKey(c) == i {
        BlankConcat(ToolAt(init, i, k).arguments, Pieces(c.delta.toolCalls, k));
        assert choices[..|init| + 1] == choices;
      }
    }
  }

  /** At the filling chunk itself the normalised text is the earlier blanks and the empty objects. */
  lemma FilledNow(init: seq<ChoiceValue>, c: ChoiceValue, i: int, k: int)
    requires FillsAt(init + [c], |init|, i, k) && !FlagAt(init, i, k)
    requires ToolAt(Normalized(init), i, k).arguments == ToolAt(init, i, k).arguments
    ensures (init + [c])[..|init| + 1] == init + [c]
    ensures ToolAt(Normalized(init + [c]), i, k).arguments == FilledText(init + [c], |init|, i, k)
  {
    hide *;
    var all := init + [c];
    assert all[..|init|] == init && all[..|init| + 1] == all;
    FillsAtLast(init, c, i, k);
    ArgumentsStep(init, c, i, k);
    BlankConcat(ToolAt(init, i, k).arguments, Pieces(c.delta.toolCalls, k));
    FilledTextIs(all, |init|, i, k);
    NothingAfter(ToolAt(init, i, k).arguments + Repeat(EmptyObject(), Max1(Entries(c.delta.toolCalls, k))),
                 ToolAt(all, i, k).arguments);
  }

  lemma NothingAfter(text: string, raw: string)
    ensures text + raw[|raw|..] == text
  {
  }

  lemma FilledTextIs(choices: seq<ChoiceValue>, n: nat, i: int, k: int)
    requires n < |choices| && choices[n].Choice?
    requires |ToolAt(choices[..n + 1], i, k).arguments| <= |ToolAt(choices, i, k).arguments|
    ensures FilledText(choices, n, i, k)
            == ToolAt(choices[..n], i, k).arguments
               + Repeat(EmptyObject(), Max1(Entries(choices[n].delta.toolCalls, k)))
               + ToolAt(choices, i, k).arguments[|ToolAt(choices[..n + 1], i, k).arguments|..]
  {
    hide ToolAt, Repeat, Entries;
  }

  lemma FirstFillBefore(init: seq<ChoiceValue>, c: ChoiceValue, n: nat, i: int, k: int)
    requires n <= |init| && FirstFill(init + [c], n, i, k)
    ensures n < |init| ==> FirstFill(init, n, i, k) && Filled(init, i, k)
    ensures n == |init| ==> !Filled(init, i, k) && FillsAt(init + [c], n, i, k)
    ensures (init + [c])[n].Choice?
  {
    hide ToolAt, ChoiceAt, IsBlank;
    var all := init + [c];
    forall m | 0 <= m < |init| ensures FillsAt(all, m, i, k) <==> FillsAt(init, m, i, k) {
      FillsAtPrefix(init, c, m, i, k);
    }
    assert all[n].Choice?;
    hide FillsAt;
  }

  lemma FilledTextStep(init: seq<ChoiceValue>, c: ChoiceValue, n: nat, i: int, k: int)
    requires n <= |init| && FirstFill(init + [c], n, i, k)
    requires FlagAt(init, i, k) <==> !IsBlank(ToolAt(init, i, k).arguments) || Filled(init, i, k)
    requires !Filled(init, i, k) ==> ToolAt(Normalized(init), i, k).arguments == ToolAt(init, i, k).arguments
    requires forall m :: 0 <= m < |init| && FirstFill(init, m, i, k) ==>
               && ToolAt(init[..m + 1], i, k).arguments <= ToolAt(init, i, k).arguments
               && ToolAt(Normalized(init), i, k).arguments == FilledText(init, m, i, k)
    ensures ToolAt((init + [c])[..n + 1], i, k).arguments <= ToolAt(init + [c], i, k).arguments
    ensures ToolAt(Normalized(init + [c]), i, k).arguments == FilledText(init + [c], n, i, k)
  {
    hide *;
    var all := init + [c];
    FirstFillBefore(init, c, n, i, k);
    if n == |init| {
      assert all[..n + 1] == all;
      FillsAtLast(init, c, i, k);
      ArgumentsStep(init, c, i, k);
      BlankConcat(ToolAt(init, i, k).arguments, Pieces(c.delta.toolCalls, k));
      FilledNow(init, c, i, k);
    } else {
      assert all[n] == init[n];
      FilledThenMore(init, c, n, i, k);
    }
  }

  lemma LaterPieces(early: string, raw: string, cut: nat, pieces: string)
    requires cut <= |raw|
    ensures early + (raw + pieces)[cut..] == early + raw[cut..] + pieces
  {
    assert (raw + pieces)[cut..] == raw[cut..] + pieces;
  }

  /** Whatever comes after the filling chunk is added to both sides alike. */
  lemma FilledThenMore(init: seq<ChoiceValue>, c: ChoiceValue, n: nat, i: int, k: int)
    requires n < |init| && init[n].Choice? && FlagAt(init, i, k)
    requires ToolAt(init[..n + 1], i, k).arguments <= ToolAt(init, i, k).arguments
    requires ToolAt(Normalized(init), i, k).arguments == FilledText(init, n, i, k)
    ensures ToolAt((init + [c])[..n + 1], i, k).arguments <= ToolAt(init + [c], i, k).arguments
    ensures ToolAt(Normalized(init + [c]), i, k).arguments == FilledText(init + [c], n, i, k)
  {
    hide *;
    var all := init + [c];
    ArgumentsStep(init, c, i, k);
    assert all[..n] == init[..n] && all[..n + 1] == init[..n + 1] && all[n] == init[n];
    FilledTextIs(init, n, i, k);
    FilledTextIs(all, n, i, k);
    if c.Choice? && ChoiceKey(c) == i {
      var early := ToolAt(init[..n], i, k).arguments + Repeat(EmptyObject(), Max1(Entries(init[n].delta.toolCalls, k)));
      LaterPieces(early, ToolAt(init, i, k).arguments, |ToolAt(init[..n + 1], i, k).arguments|,
                  Pieces(c.delta.toolCalls, k));
    }
  }

  /** A filled text is never the raw one: an empty object stands where the raw text has a blank or
      nothing. */
  lemma FilledDiffers(early: string, late: string, raw: string, n: nat)
    requires IsBlank(late) && n > 0 && early + late <= raw
    ensures early + Repeat(EmptyObject(), n) + raw[|early + late|..] != raw
  {
    var fill, post := Repeat(EmptyObject(), n), raw[|early + late|..];
    RepeatStartsWithBrace(n);
    hide Repeat;
    if late == "" {
      assert |early + fill + post| > |raw|;
    } else {
      assert IsWhitespace(late[0]);
      assert (early + fill + post)[|early|] == fill[0] && raw[|early|] == (early + late)[|early|] == late[0];
    }
  }

  lemma {:induction false} RepeatStartsWithBrace(n: nat)
    requires n > 0
    ensures Repeat(EmptyObject(), n) != "" && Repeat(EmptyObject(), n)[0] == '{'
  {
    if n == 1 {
      RepeatOnce(EmptyObject());
    } else {
      RepeatStartsWithBrace(n - 1);
    }
  }

  lemma {:induction false} FirstFillExists(choices: seq<ChoiceValue>, n: nat, i: int, k: int) returns (m: nat)
    requires n < |choices| && FillsAt(choices, n, i, k)
    ensures m <= n && FirstFill(choices, m, i, k)
  {
    hide FillsAt;
    if j :| 0 <= j < n && FillsAt(choices, j, i, k) {
      m := FirstFillExists(choices, j, i, k);
    } else {
      m := n;
    }
  }

  lemma FillingChunk(choices: seq<ChoiceValue>, m: nat, i: int, k: int)
    requires m < |choices| && FillsAt(choices, m, i, k)
    ensures choices[m].Choice? && ChoiceKey(choices[m]) == i && IsBlank(ToolAt(choices[..m + 1], i, k).arguments)
  {
    hide ToolAt, ChoiceAt, IsBlank;
  }

  lemma FirstFillDiffers(choices: seq<ChoiceValue>, m: nat, i: int, k: int)
    requires m < |choices| && FillsAt(choices, m, i, k)
    requires ToolAt(choices[..m + 1], i, k).arguments <= ToolAt(choices, i, k).arguments
    ensures choices[m].Choice? && FilledText(choices, m, i, k) != ToolAt(choices, i, k).arguments
  {
    hide *;
    FillingChunk(choices, m, i, k);
    var init, c := choices[..m], choices[m];
    assert choices[..m + 1] == init + [c];
    ArgumentsStep(init, c, i, k);
    var early, late := ToolAt(init, i, k).arguments, Pieces(c.delta.toolCalls, k);
    BlankConcat(early, late);
    AtLeastOne(Entries(c.delta.toolCalls, k));
    FilledTextIs(choices, m, i, k);
    FilledDiffers(early, late, ToolAt(choices, i, k).arguments, Max1(Entries(c.delta.toolCalls, k)));
  }

  lemma AtLeastOne(n: nat)
    ensures Max1(n) > 0
  {
  }

  /** A tool's collected arguments change exactly when, at some chunk finishing its choice with tool
      calls, all its pieces so far were blank; the text is then that of the first such chunk. */
  lemma ArgumentsChangeExactlyWhenFilled(choices: seq<ChoiceValue>, i: int, k: int)
    ensures ToolAt(Normalized(choices), i, k).arguments != ToolAt(choices, i, k).arguments <==> Filled(choices, i, k)
    ensures forall n :: 0 <= n < |choices| && FirstFill(choices, n, i, k) ==>
              && ToolAt(choices[..n + 1], i, k).arguments <= ToolAt(choices, i, k).arguments
              && ToolAt(Normalized(choices), i, k).arguments == FilledText(choices, n, i, k)
  {
    ArgumentsExactly(choices, i, k);
    hide ToolAt, FillsAt, FilledText, Normalized;
    if Filled(choices, i, k) {
      var n :| 0 <= n < |choices| && FillsAt(choices, n, i, k);
      var m := FirstFillExists(choices, n, i, k);
      FirstFillDiffers(choices, m, i, k);
    }
  }

  /** As long as a choice has not finished with tool calls its tools are collected untouched. */
  lemma {:induction false} UnfinishedToolsAreUntouched(choices: seq<ChoiceValue>, i: int)
    requires forall c :: c in choices && c.Choice? && ChoiceKey(c) == i ==> c.finish != TOOL_CALLS
    ensures ChoiceAt(Normalized(choices), i).tools == ChoiceAt(choices, i).tools
  {
    if choices != [] {
      var init, c := choices[..|choices| - 1], choices[|choices| - 1];
      assert c in choices && choices == init + [c];
      UnfinishedToolsAreUntouched(init, i);
      NormalizedLast(init, c);
      var key, d := ChoiceKey(c), NormalizeChoice(SeenIn(init), c);
      GetPut(Collect(init), key, AddChoice(ChoiceAt(init, key), c), i, EMPTY_CHOICE);
      GetPut(Collect(Normalized(init)), key, AddChoice(ChoiceAt(Normalized(init), key), d), i, EMPTY_CHOICE);
    }
  }

  /** The first chunk that finishes a choice with tool calls leaves a tool with real arguments as it was
      sent. */
  lemma FinishingKeepsRealArguments(init: seq<ChoiceValue>, c: ChoiceValue, k: int)
    requires c.Choice? && c.finish == TOOL_CALLS
    requires forall x :: x in init && x.Choice? && ChoiceKey(x) == ChoiceKey(c) ==> x.finish != TOOL_CALLS
    requires !IsBlank(ToolAt(init + [c], ChoiceKey(c), k).arguments)
    ensures ToolAt(Normalized(init + [c]), ChoiceKey(c), k).arguments == ToolAt(init + [c], ChoiceKey(c), k).arguments
  {
    var all, i := init + [c], ChoiceKey(c);
    ArgumentsChangeExactlyWhenFilled(all, i, k);
    assert all[..|init| + 1] == all;
    forall n | 0 <= n < |all| ensures !FillsAt(all, n, i, k) {
      if n < |init| {
        assert all[n] in init;
      }
    }
  }

  /** Normalising a stream keeps the collected choices, their order, content, refusal and finish
      reason, and every tool's id, type, name and order; its arguments change exactly when the tool is
      filled in, and until it has arguments, real or filled in, they stay blank and unchanged. */
  lemma CollectedMeaningPreserved(choices: seq<ChoiceValue>, i: int, k: int)
    ensures Keys(Collect(Normalized(choices))) == Keys(Collect(choices))
    ensures var a, b := ChoiceAt(choices, i), ChoiceAt(Normalized(choices), i);
            && b.content == a.content && b.refusal == a.refusal && b.finish == a.finish
            && Keys(b.tools) == Keys(a.tools)
    ensures var x, y := ToolAt(choices, i, k), ToolAt(Normalized(choices), i, k);
            && y.id == x.id && y.kind == x.kind && y.name == x.name
            && (y.arguments != x.arguments <==> Filled(choices, i, k))
            && (if FlagAt(choices, i, k) then !IsBlank(y.arguments) else y.arguments == x.arguments && IsBlank(x.arguments))
            && (FlagAt(choices, i, k) <==> !IsBlank(x.arguments) || Filled(choices, i, k))
  {
    LockstepStream(choices);
    assert ChoiceRel(ChoiceAt(choices, i), ChoiceAt(Normalized(choices), i), Get(SeenIn(choices), i, []));
    assert ToolRel(ToolAt(choices, i, k), ToolAt(Normalized(choices), i, k), FlagAt(choices, i, k));
    ArgumentsChangeExactlyWhenFilled(choices, i, k);
    ArgumentsExactly(choices, i, k);
  }

  /** When a choice finishes with tool calls, every tool it has named ends with non-blank arguments.
      Unless an earlier chunk filled it in, a tool with any non-blank piece ends with its raw text, and
      one without ends with its earlier blanks followed by one empty object per entry the chunk has for
      it, or by a single one. */
  lemma FinishingFillsEveryTool(init: seq<ChoiceValue>, c: ChoiceValue, k: int)
    requires c.Choice? && c.finish == TOOL_CALLS
    ensures var i, all := ChoiceKey(c), init + [c];
            var before, after := ToolAt(Normalized(init), i, k), ToolAt(Normalized(all), i, k);
            var tools := c.delta.toolCalls;
            Has(ChoiceAt(Normalized(all), i).tools, k) ==>
              && !IsBlank(after.arguments)
              && after.arguments == before.arguments +
                   (if FlagAt(init, i, k) || !IsBlank(Pieces(tools, k)) then Pieces(tools, k)
                    else Repeat("{}", Max1(Entries(tools, k))))
              && (!FlagAt(init, i, k) ==>
                    before.arguments == ToolAt(init, i, k).arguments && IsBlank(before.arguments))
              && (!Filled(init, i, k) ==>
                    after.arguments ==
                      if !IsBlank(ToolAt(all, i, k).arguments) then ToolAt(all, i, k).arguments
                      else ToolAt(init, i, k).arguments + Repeat("{}", Max1(Entries(tools, k))))
  {
    var i, all := ChoiceKey(c), init + [c];
    FinishedArguments(init, c, k);
    if !Filled(init, i, k) {
      FinishedText(init, c, k);
    }
    hide ToolAt, ChoiceAt, FlagAt, Normalized, Pieces, Entries, Repeat, Filled, IsBlank;
  }

  lemma FinishedArguments(init: seq<ChoiceValue>, c: ChoiceValue, k: int)
    requires c.Choice? && c.finish == TOOL_CALLS
    ensures var i, all := ChoiceKey(c), init + [c];
            var before, after := ToolAt(Normalized(init), i, k), ToolAt(Normalized(all), i, k);
            var tools := c.delta.toolCalls;
            Has(ChoiceAt(Normalized(all), i).tools, k) ==>
              && Has(ChoiceAt(all, i).tools, k)
              && !IsBlank(after.arguments)
              && after.arguments == before.arguments +
                   (if FlagAt(init, i, k) || !IsBlank(Pieces(tools, k)) then Pieces(tools, k)
                    else Repeat(EmptyObject(), Max1(Entries(tools, k))))
              && (!FlagAt(init, i, k) ==>
                    before.arguments == ToolAt(init, i, k).arguments && IsBlank(before.arguments))
  {
    var i, all := ChoiceKey(c), init + [c];
    ToolKnown(all, i, k);
    CollectedArguments(init, i, k);
    CollectedArguments(all, i, k);
    ArgumentsStep(init, c, i, k);
    hide ToolAt, ChoiceAt, FlagAt, Normalized, Pieces, Entries, Repeat, IsBlank;
  }

  lemma ToolKnown(choices: seq<ChoiceValue>, i: int, k: int)
    ensures Has(ChoiceAt(Normalized(choices), i).tools, k) <==> Has(ChoiceAt(choices, i).tools, k)
  {
    LockstepStream(choices);
    assert ChoiceRel(ChoiceAt(choices, i), ChoiceAt(Normalized(choices), i), Get(SeenIn(choices), i, []));
    HasKeys(ChoiceAt(choices, i).tools, k);
    HasKeys(ChoiceAt(Normalized(choices), i).tools, k);
  }

  lemma CollectedArguments(choices: seq<ChoiceValue>, i: int, k: int)
    ensures ArgumentsRel(ToolAt(choices, i, k).arguments, ToolAt(Normalized(choices), i, k).arguments, FlagAt(choices, i, k))
  {
    LockstepStream(choices);
    assert ChoiceRel(ChoiceAt(choices, i), ChoiceAt(Normalized(choices), i), Get(SeenIn(choices), i, []));
    assert ToolRel(ToolAt(choices, i, k), ToolAt(Normalized(choices), i, k), FlagAt(choices, i, k));
  }

  lemma FinishedText(init: seq<ChoiceValue>, c: ChoiceValue, k: int)
    requires c.Choice? && c.finish == TOOL_CALLS
    requires !Filled(init, ChoiceKey(c), k)
    ensures var i, all := ChoiceKey(c), init + [c];
            Has(ChoiceAt(all, i).tools, k) ==>
              ToolAt(Normalized(all), i, k).arguments ==
                if !IsBlank(ToolAt(all, i, k).arguments) then ToolAt(all, i, k).arguments
                else ToolAt(init, i, k).arguments + Repeat(EmptyObject(), Max1(Entries(c.delta.toolCalls, k)))
  {
    var i := ChoiceKey(c);
    ArgumentsExactly(init, i, k);
    ArgumentsStep(init, c, i, k);
    hide ToolAt, ChoiceAt, FlagAt, Normalized, Pieces, Entries, Repeat, Filled;
    BlankConcat(ToolAt(init, i, k).arguments, Pieces(c.delta.toolCalls, k));
  }

  lemma NormalizedLast(init: seq<ChoiceValue>, c: ChoiceValue)
    ensures Collect(Normalized(init + [c]))
            == CollectChoice(Collect(Normalized(init)), NormalizeChoice(SeenIn(init), c))
  {
    var all := Normalized(init + [c]);
    assert (init + [c])[..|init|] == init;
    assert all[..|all| - 1] == Normalized(init);
  }

  // ----- Reasoning -----

  predicate CarriesBothReasonings(c: ChoiceValue) {
    c.Choice? && c.delta.reasoning.Str? && TextOf(c.delta.reasoningContent) != ""
    && c.delta.reasoning != c.delta.reasoningContent
  }

  /** A choice contributes different reasoning after normalisation exactly when its delta carries
      two different texts: the collector prefers one field and the normaliser the other. */
  lemma ReasoningChangesExactlyWhenBothDiffer(c: ChoiceValue)
    requires c.Choice?
    ensures ReasoningOf(NormalizeReasoning(c).delta) == ReasoningOf(c.delta) <==> !CarriesBothReasonings(c)
  {
  }

  lemma {:induction false} NormalizedAt(choices: seq<ChoiceValue>, n: nat)
    requires n < |choices|
    ensures |Normalized(choices)| == |choices|
    ensures Normalized(choices)[n] == NormalizeChoice(SeenIn(choices[..n]), choices[n])
  {
    hide NormalizeChoice, SeenIn;
    var last := |choices| - 1;
    if n < last {
      NormalizedAt(choices[..last], n);
      assert choices[..last][..n] == choices[..n];
    } else if last > 0 {
      NormalizedAt(choices[..last], 0);
    }
  }

  /** A delta with non-empty native reasoning carries it, and only it, as `reasoning` once normalised; the
      reasoning fields of any other delta, its content, its refusal and its finish reason stay as they
      are. */
  lemma NormalizedDelta(choices: seq<ChoiceValue>, n: nat)
    requires n < |choices|
    ensures |Normalized(choices)| == |choices|
    ensures var c, d := choices[n], Normalized(choices)[n];
            && (c.NotChoice? ==> d == c)
            && (c.Choice? ==>
                  && d.Choice? && d.index == c.index && d.finish == c.finish
                  && d.delta.content == c.delta.content && d.delta.refusal == c.delta.refusal
                  && (if c.delta.reasoningContent.Str? && c.delta.reasoningContent.s != ""
                      then d.delta.reasoning == c.delta.reasoningContent && d.delta.reasoningContent == Absent
                      else d.delta.reasoning == c.delta.reasoning
                           && d.delta.reasoningContent == c.delta.reasoningContent)
                  && (c.finish != Str("tool_calls") ==> d.delta.toolCalls == c.delta.toolCalls))
  {
    NormalizedAt(choices, n);
    hide Normalized, SeenIn, NormalizedTools, NoteTools, Missing;
  }

  lemma BothReasoningsExample()
    ensures var c := Choice(Some(0), NO_DELTA.(reasoning := Str("a"), reasoningContent := Str("b")), Absent);
            ChoiceAt([c], 0).reasoning == "a" && ChoiceAt(Normalized([c]), 0).reasoning == "b"
  {
    var c := Choice(Some(0), NO_DELTA.(reasoning := Str("a"), reasoningContent := Str("b")), Absent);
    var d := NormalizeChoice([], c);
    assert [c][..0] == [] && [d][..0] == [];
    assert Normalized([c]) == [d];
    assert Collect([c]) == CollectChoice([], c) && Collect([d]) == CollectChoice([], d);
    assert "" + "a" == "a" && "" + "b" == "b";
  }

  /** A choice's collected reasoning is unchanged when none of its own deltas carries two different
      texts. */
  lemma {:induction false} ReasoningPreserved(choices: seq<ChoiceValue>, i: int)
    requires forall c :: c in choices && ChoiceKey(c) == i ==> !CarriesBothReasonings(c)
    ensures ChoiceAt(Normalized(choices), i).reasoning == ChoiceAt(choices, i).reasoning
  {
    if choices != [] {
      var init, c := choices[..|choices| - 1], choices[|choices| - 1];
      assert c in choices && init + [c] == choices;
      ReasoningPreserved(init, i);
      NormalizedLast(init, c);
      assert Collect(choices) == CollectChoice(Collect(init), c);
      ReasoningStep(Collect(init), Collect(Normalized(init)), SeenIn(init), c, i);
    }
  }

  lemma ReasoningStep(raw: seq<Slot<ChoiceAcc>>, norm: seq<Slot<ChoiceAcc>>, seen: Seen, c: ChoiceValue, i: int)
    requires ChoiceKey(c) == i ==> !CarriesBothReasonings(c)
    requires Get(raw, i, EMPTY_CHOICE).reasoning == Get(norm, i, EMPTY_CHOICE).reasoning
    ensures Get(CollectChoice(raw, c), i, EMPTY_CHOICE).reasoning
            == Get(CollectChoice(norm, NormalizeChoice(seen, c)), i, EMPTY_CHOICE).reasoning
  {
    var k, d := ChoiceKey(c), NormalizeChoice(seen, c);
    GetPut(raw, k, AddChoice(Get(raw, k, EMPTY_CHOICE), c), i, EMPTY_CHOICE);
    GetPut(norm, k, AddChoice(Get(norm, k, EMPTY_CHOICE), d), i, EMPTY_CHOICE);
  }

  // ----- Splitting a delta -----

  /** Two streams the collector and the normaliser cannot tell apart from here on. */
  predicate Interchangeable(x: seq<ChoiceValue>, y: seq<ChoiceValue>) {
    Collect(Normalized(x)) == Collect(Normalized(y)) && SeenIn(x) == SeenIn(y)
  }

  lemma SeenLast(init: seq<ChoiceValue>, c: ChoiceValue)
    ensures SeenIn(init + [c]) == SeenAfter(SeenIn(init), c)
  {
    assert (init + [c])[..|init|] == init;
  }

  lemma InterchangeableStep(x: seq<ChoiceValue>, y: seq<ChoiceValue>, c: ChoiceValue)
    requires Interchangeable(x, y)
    ensures Interchangeable(x + [c], y + [c])
  {
    NormalizedLast(x, c);
    NormalizedLast(y, c);
    SeenLast(x, c);
    SeenLast(y, c);
    hide Collect, Normalized, SeenIn, NormalizeChoice, SeenAfter, CollectChoice;
  }

  lemma {:induction false} InterchangeableExtends(x: seq<ChoiceValue>, y: seq<ChoiceValue>, post: seq<ChoiceValue>)
    requires Interchangeable(x, y)
    ensures Interchangeable(x + post, y + post)
  {
    if post == [] {
      assert x + post == x && y + post == y;
    } else {
      hide *;
      var init, c := post[..|post| - 1], post[|post| - 1];
      InterchangeableExtends(x, y, init);
      InterchangeableStep(x + init, y + init, c);
      AppendLast(x, post);
      AppendLast(y, post);
    }
  }

  /** The rest of a content delta, sent on its own. */
  function ContentRest(c: ChoiceValue, rest: string): ChoiceValue
    requires c.Choice?
  {
    Choice(c.index, NO_DELTA.(content := Str(rest)), Absent)
  }

  function WithContent(c: ChoiceValue, content: string): ChoiceValue
    requires c.Choice?
  {
    c.(delta := c.delta.(content := Str(content)))
  }

  lemma QuietChoice(flags: Flags, c: ChoiceValue)
    requires c.Choice? && c.delta.toolCalls == [] && c.finish == Absent && c.delta.reasoningContent == Absent
    ensures NormalizeTools(flags, NormalizeReasoning(c)) == c && FlagsAfter(flags, c) == flags
  {
  }

  lemma ContentIsIndependent(seen: Seen, c: ChoiceValue, content: string)
    requires c.Choice?
    ensures NormalizeChoice(seen, c).Choice?
    ensures NormalizeChoice(seen, WithContent(c, content)) == WithContent(NormalizeChoice(seen, c), content)
    ensures SeenAfter(seen, WithContent(c, content)) == SeenAfter(seen, c)
  {
  }

  lemma SplitContentAcc(acc: ChoiceAcc, d: ChoiceValue, index: Option<int>, head: string, rest: string)
    requires d.Choice?
    ensures AddChoice(AddChoice(acc, WithContent(d, head)), Choice(index, NO_DELTA.(content := Str(rest)), Absent))
            == AddChoice(acc, WithContent(d, head + rest))
  {
    var mid := AddChoice(acc, WithContent(d, head));
    assert acc.content + head + rest == acc.content + (head + rest);
    assert mid.reasoning + "" == mid.reasoning && mid.refusal + "" == mid.refusal;
    hide CollectTools;
    assert CollectTools(mid.tools, []) == mid.tools by { EmptyToolsCollect(mid.tools); }
  }

  lemma EmptyToolsCollect(m: seq<Slot<ToolAcc>>)
    ensures CollectTools(m, []) == m
  {
  }

  /** Cutting a content delta in two changes nothing that is collected, now or later. */
  lemma SplittingContent(pre: seq<ChoiceValue>, c: ChoiceValue, head: string, rest: string, post: seq<ChoiceValue>)
    requires c.Choice?
    ensures Collect(Normalized(pre + [WithContent(c, head), ContentRest(c, rest)] + post))
            == Collect(Normalized(pre + [WithContent(c, head + rest)] + post))
  {
    var whole, first, second := WithContent(c, head + rest), WithContent(c, head), ContentRest(c, rest);
    var i, seen := ChoiceKey(c), SeenIn(pre);
    var m := Collect(Normalized(pre));
    var acc, flags := Get(m, i, EMPTY_CHOICE), Get(seen, i, []);
    TwoLast(pre, first, second);
    NormalizedLast(pre, whole);
    assert (pre + [whole])[..|pre|] == pre;
    ContentIsIndependent(seen, c, head);
    ContentIsIndependent(seen, c, head + rest);
    var d := NormalizeChoice(seen, c);
    SplitContentAcc(acc, d, c.index, head, rest);
    var mid := AddChoice(acc, WithContent(d, head));
    GetPut(m, i, mid, i, EMPTY_CHOICE);
    GetPut(seen, i, FlagsAfter(flags, c), i, []);
    QuietChoice(FlagsAfter(flags, c), second);
    PutTwice(m, i, mid, AddChoice(mid, second));
    PutTwice(seen, i, FlagsAfter(flags, c), FlagsAfter(flags, c));
    hide AddChoice, FlagsAfter, NormalizeTools, NormalizeReasoning, Collect, Normalized, SeenIn;
    InterchangeableExtends(pre + [first, second], pre + [whole], post);
  }

  lemma TwoLast(pre: seq<ChoiceValue>, first: ChoiceValue, second: ChoiceValue)
    ensures Collect(Normalized(pre + [first, second]))
            == CollectChoice(CollectChoice(Collect(Normalized(pre)), NormalizeChoice(SeenIn(pre), first)),
                             NormalizeChoice(SeenAfter(SeenIn(pre), first), second))
    ensures SeenIn(pre + [first, second]) == SeenAfter(SeenAfter(SeenIn(pre), first), second)
  {
    assert pre + [first, second] == (pre + [first]) + [second];
    NormalizedLast(pre + [first], second);
    NormalizedLast(pre, first);
    assert ((pre + [first]) + [second])[..|pre| + 1] == pre + [first];
    assert (pre + [first])[..|pre|] == pre;
  }

  function WithTools(c: ChoiceValue, tools: seq<ToolValue>): ChoiceValue
    requires c.Choice?
  {
    c.(delta := c.delta.(toolCalls := tools))
  }

  /** The rest of an entry's arguments. */
  function EntryRest(entry: ToolValue, rest: string): ToolValue
    requires entry.Tool?
  {
    Tool(entry.index, Absent, Absent, Absent, Str(rest))
  }

  /** The rest of a delta cut inside a tool entry, sent on its own. */
  function ArgumentsRest(c: ChoiceValue, tools: seq<ToolValue>): ChoiceValue
    requires c.Choice?
  {
    Choice(c.index, NO_DELTA.(toolCalls := tools), Absent)
  }

  lemma CollectLastTool(m: seq<Slot<ToolAcc>>, x: seq<ToolValue>, t: ToolValue)
    ensures CollectTools(m, x + [t])
            == Put(CollectTools(m, x), ToolKey(t), AddTool(Get(CollectTools(m, x), ToolKey(t), EMPTY_TOOL), t))
    ensures CollectTools(m, [t]) == Put(m, ToolKey(t), AddTool(Get(m, ToolKey(t), EMPTY_TOOL), t))
  {
    assert (x + [t])[..|x|] == x;
    assert [t][..0] == [];
  }

  lemma SplitAdd(acc: ToolAcc, entry: ToolValue, head: string, rest: string)
    requires entry.Tool?
    ensures AddTool(AddTool(acc, entry.(arguments := Str(head))), EntryRest(entry, rest))
            == AddTool(acc, entry.(arguments := Str(head + rest)))
  {
    assert acc.arguments + head + rest == acc.arguments + (head + rest);
    var mid := AddTool(acc, entry.(arguments := Str(head)));
    assert mid.name + "" == mid.name;
  }

  lemma SplitToolFold(
      m: seq<Slot<ToolAcc>>, x: seq<ToolValue>, entry: ToolValue, head: string, rest: string, y: seq<ToolValue>)
    requires entry.Tool?
    ensures CollectTools(CollectTools(m, x + [entry.(arguments := Str(head))]), [EntryRest(entry, rest)] + y)
            == CollectTools(m, x + [entry.(arguments := Str(head + rest))] + y)
  {
    hide CollectTools, AddTool, Put, Get;
    var first, whole := entry.(arguments := Str(head)), entry.(arguments := Str(head + rest));
    var second := EntryRest(entry, rest);
    var k, before := ToolKey(entry), CollectTools(m, x);
    var acc := Get(before, k, EMPTY_TOOL);
    CollectToolsConcat(CollectTools(m, x + [first]), [second], y);
    CollectToolsConcat(m, x + [whole], y);
    CollectLastTool(m, x, first);
    CollectLastTool(m, x, whole);
    CollectLastTool(CollectTools(m, x + [first]), [], second);
    GetPut(before, k, AddTool(acc, first), k, EMPTY_TOOL);
    PutTwice(before, k, AddTool(acc, first), AddTool(acc, whole));
    SplitAdd(acc, entry, head, rest);
  }

  lemma {:induction false} NoteToolsConcat(flags: Flags, x: seq<ToolValue>, y: seq<ToolValue>)
    ensures NoteTools(flags, x + y) == NoteTools(NoteTools(flags, x), y)
  {
    if y == [] {
      assert x + y == x;
    } else {
      NoteToolsConcat(flags, x, y[..|y| - 1]);
      assert (x + y)[..|x + y| - 1] == x + y[..|y| - 1];
    }
  }

  lemma SplitNote(flags: Flags, x: seq<ToolValue>, entry: ToolValue, head: string, rest: string, y: seq<ToolValue>)
    requires entry.Tool?
    ensures NoteTools(NoteTools(flags, x + [entry.(arguments := Str(head))]), [EntryRest(entry, rest)] + y)
            == NoteTools(flags, x + [entry.(arguments := Str(head + rest))] + y)
  {
    var first, whole := entry.(arguments := Str(head)), entry.(arguments := Str(head + rest));
    var second := EntryRest(entry, rest);
    var k, before := ToolKey(entry), NoteTools(flags, x);
    var flag := Get(before, k, false);
    NoteToolsConcat(NoteTools(flags, x + [first]), [second], y);
    NoteToolsConcat(flags, x + [whole], y);
    assert (x + [first])[..|x|] == x && (x + [whole])[..|x|] == x;
    assert [second][..0] == [];
    GetPut(before, k, flag || HasArguments(first), k, false);
    PutTwice(before, k, flag || HasArguments(first), flag || HasArguments(whole));
    BlankConcat(head, rest);
  }

  lemma UnfinishedChoice(flags: Flags, c: ChoiceValue)
    requires c.Choice? && c.finish != TOOL_CALLS
    ensures NormalizeTools(flags, NormalizeReasoning(c)) == NormalizeReasoning(c)
    ensures FlagsAfter(flags, c) == NoteTools(flags, c.delta.toolCalls)
  {
  }

  /** The two halves of a cut delta add up to the whole one. */
  lemma SplitArgumentsAcc(
      acc: ChoiceAcc, c: ChoiceValue, x: seq<ToolValue>, entry: ToolValue, head: string, rest: string, y: seq<ToolValue>)
    requires c.Choice? && entry.Tool?
    ensures var first := WithTools(c, x + [entry.(arguments := Str(head))]);
            var second := ArgumentsRest(c, [EntryRest(entry, rest)] + y);
            var whole := WithTools(c, x + [entry.(arguments := Str(head + rest))] + y);
            AddChoice(AddChoice(acc, NormalizeReasoning(first)), NormalizeReasoning(second))
            == AddChoice(acc, NormalizeReasoning(whole))
  {
    hide CollectTools;
    var mid := AddChoice(acc, NormalizeReasoning(WithTools(c, x + [entry.(arguments := Str(head))])));
    SplitToolFold(acc.tools, x, entry, head, rest, y);
    assert mid.content + "" == mid.content && mid.reasoning + "" == mid.reasoning && mid.refusal + "" == mid.refusal;
  }

  /** Cutting a delta inside the arguments of any of its tool entries, before the finishing chunk,
      changes nothing that is collected, now or later. */
  lemma SplittingArguments(
      pre: seq<ChoiceValue>, c: ChoiceValue, x: seq<ToolValue>, entry: ToolValue, head: string, rest: string,
      y: seq<ToolValue>, post: seq<ChoiceValue>)
    requires c.Choice? && entry.Tool? && c.finish != TOOL_CALLS
    ensures Collect(Normalized(pre + [WithTools(c, x + [entry.(arguments := Str(head))]),
                                      ArgumentsRest(c, [EntryRest(entry, rest)] + y)] + post))
            == Collect(Normalized(pre + [WithTools(c, x + [entry.(arguments := Str(head + rest))] + y)] + post))
  {
    var first, second := WithTools(c, x + [entry.(arguments := Str(head))]), ArgumentsRest(c, [EntryRest(entry, rest)] + y);
    var whole := WithTools(c, x + [entry.(arguments := Str(head + rest))] + y);
    var i, seen, m := ChoiceKey(c), SeenIn(pre), Collect(Normalized(pre));
    var acc, flags := Get(m, i, EMPTY_CHOICE), Get(seen, i, []);
    var flagsMid, flagsEnd := NoteTools(flags, first.delta.toolCalls), NoteTools(flags, whole.delta.toolCalls);
    SplitArgumentsAcc(acc, c, x, entry, head, rest, y);
    SplitNote(flags, x, entry, head, rest, y);
    hide AddChoice, NoteTools, NormalizeTools, NormalizeReasoning, FlagsAfter, Collect, Normalized, SeenIn;
    TwoLast(pre, first, second);
    NormalizedLast(pre, whole);
    SeenLast(pre, whole);
    UnfinishedChoice(flags, first);
    UnfinishedChoice(flagsMid, second);
    UnfinishedChoice(flags, whole);
    ReasoningKeepsKey(first);
    ReasoningKeepsKey(second);
    ReasoningKeepsKey(whole);
    var mid, last := AddChoice(acc, NormalizeReasoning(first)), AddChoice(acc, NormalizeReasoning(whole));
    GetPut(m, i, mid, i, EMPTY_CHOICE);
    GetPut(seen, i, flagsMid, i, []);
    PutTwice(m, i, mid, last);
    PutTwice(seen, i, flagsMid, flagsEnd);
    InterchangeableExtends(pre + [first, second], pre + [whole], post);
  }

  lemma ReasoningKeepsKey(c: ChoiceValue)
    ensures ChoiceKey(NormalizeReasoning(c)) == ChoiceKey(c)
  {
  }

  // ----- The algorithms -----

  method NoteToolCalls(flags: Flags, tools: seq<ToolValue>) returns (after: Flags)
    ensures after == NoteTools(flags, tools)
  {
    after := flags;
    for n := 0 to |tools|
      invariant after == NoteTools(flags, tools[..n])
    {
      TakeNext([], tools, n);
      var key := ToolKey(tools[n]);
      if !Has(after, key) {
        HasDefault(after, key);
        after := Put(after, key, HasArguments(tools[n]));
      } else if HasArguments(tools[n]) {
        after := Put(after, key, true);
      } else {
        PutSame(after, key, false);
      }
    }
    TakeEnds([], tools);
  }

  /** Fills the chunk's own entries of missing tools, appends entries for the rest, and marks all
      of them as done. */
  method FillMissing(noted: Flags, tools: seq<ToolValue>, missing: seq<int>)
    returns (filled: seq<ToolValue>, after: Flags)
    ensures filled == PatchTools(tools, missing) + Appended(tools, missing)
    ensures after == MarkAll(noted, missing)
  {
    var patched: seq<ToolValue> := [];
    for n := 0 to |tools|
      invariant patched == PatchTools(tools[..n], missing)
    {
      TakeNext([], tools, n);
      patched := patched + [PatchTool(tools[n], missing)];
    }
    TakeEnds([], tools);
    var extra: seq<ToolValue> := [];
    after := noted;
    for n := 0 to |missing|
      invariant extra == Appended(tools, missing[..n]) && after == MarkAll(noted, missing[..n])
    {
      TakeNext([], missing, n);
      if Entries(tools, missing[n]) == 0 {
        extra := extra + [Tool(Some(missing[n]), Absent, Absent, Absent, Str(EmptyObject()))];
      }
      after := Put(after, missing[n], true);
    }
    TakeEnds([], missing);
    filled := patched + extra;
  }

  /** The argument normaliser for one choice: notes the chunk's tools, and at a finish fills every
      tool without arguments. */
  method NormalizeToolArguments(flags: Flags, c: ChoiceValue) returns (out: ChoiceValue, after: Flags)
    ensures out == NormalizeTools(flags, c) && after == FlagsAfter(flags, c)
  {
    if c.NotChoice? {
      return c, flags;
    }
    after := NoteToolCalls(flags, c.delta.toolCalls);
    if c.finish != TOOL_CALLS {
      return c, after;
    }
    var missing := Missing(after);
    if |missing| == 0 {
      return c, after;
    }
    var filled;
    filled, after := FillMissing(after, c.delta.toolCalls, missing);
    out := c.(delta := c.delta.(toolCalls := filled));
  }

  lemma {:induction false} HasDefault(flags: Flags, k: int)
    requires !Has(flags, k)
    ensures !Get(flags, k, false)
  {
    if flags != [] {
      HasDefault(flags[1..], k);
    }
  }

  /** The state and the loop of streamChunks: chunk by chunk, choice by choice. */
  class ChunkNormalizer {
    var seen: Seen

    constructor ()
      ensures seen == []
    {
      seen := [];
    }

    method NormalizeChunk(chunk: Chunk, ghost past: seq<ChoiceValue>) returns (out: Chunk)
      requires seen == SeenIn(past)
      modifies this
      ensures seen == SeenIn(past + chunk.choices)
      ensures out.header == chunk.header
      ensures Normalized(past + chunk.choices) == Normalized(past) + out.choices
    {
      var choices: seq<ChoiceValue> := [];
      TakeEnds(past, chunk.choices);
      hide SeenIn, Normalized, NormalizeTools, FlagsAfter;
      for n := 0 to |chunk.choices|
        invariant seen == SeenIn(past + chunk.choices[..n])
        invariant Normalized(past + chunk.choices[..n]) == Normalized(past) + choices
      {
        var c := chunk.choices[n];
        ghost var init := past + chunk.choices[..n];
        TakeNext(past, chunk.choices, n);
        SeenLast(init, c);
        NormalizedStep(init, c);
        var key := ChoiceKey(c);
        var flags := Get(seen, key, []);
        var normalized, after := NormalizeToolArguments(flags, NormalizeReasoning(c));
        FlagsIgnoreReasoning(flags, c);
        if c.Choice? {
          seen := Put(seen, key, after);
        }
        choices := choices + [normalized];
      }
      out := Chunk(chunk.header, choices);
    }

    method NormalizeStream(chunks: seq<Chunk>) returns (out: seq<Chunk>)
      requires seen == []
      modifies this
      ensures |out| == |chunks| && forall i :: 0 <= i < |chunks| ==> out[i].header == chunks[i].header
      ensures Flat(out) == Normalized(Flat(chunks))
    {
      out := [];
      for n := 0 to |chunks|
        invariant |out| == n && forall i :: 0 <= i < n ==> out[i].header == chunks[i].header
        invariant seen == SeenIn(Flat(chunks[..n])) && Flat(out) == Normalized(Flat(chunks[..n]))
      {
        assert chunks[..n + 1][..n] == chunks[..n];
        var next := NormalizeChunk(chunks[n], Flat(chunks[..n]));
        out := out + [next];
        assert out[..n] == out[..|out| - 1];
      }
      assert chunks[..|chunks|] == chunks;
    }
  }

  lemma FlagsIgnoreReasoning(flags: Flags, c: ChoiceValue)
    ensures FlagsAfter(flags, NormalizeReasoning(c)) == FlagsAfter(flags, c)
  {
  }

  lemma NormalizedStep(init: seq<ChoiceValue>, c: ChoiceValue)
    ensures Normalized(init + [c]) == Normalized(init) + [NormalizeChoice(SeenIn(init), c)]
  {
    assert (init + [c])[..|init|] == init;
  }

  method CollectToolCalls(m: seq<Slot<ToolAcc>>, tools: seq<ToolValue>) returns (r: seq<Slot<ToolAcc>>)
    ensures r == CollectTools(m, tools)
  {
    r := m;
    for n := 0 to |tools|
      invariant r == CollectTools(m, tools[..n])
    {
      assert tools[..n + 1][..n] == tools[..n];
      var key := ToolKey(tools[n]);
      r := Put(r, key, AddTool(Get(r, key, EMPTY_TOOL), tools[n]));
    }
    assert tools[..|tools|] == tools;
  }

  method CollectChoices(m: seq<Slot<ChoiceAcc>>, ghost past: seq<ChoiceValue>, more: seq<ChoiceValue>)
    returns (r: seq<Slot<ChoiceAcc>>)
    requires m == Collect(past)
    ensures r == Collect(past + more)
  {
    r := m;
    TakeEnds(past, more);
    hide Collect, CollectTools;
    for j := 0 to |more|
      invariant r == Collect(past + more[..j])
    {
      var c := more[j];
      TakeNext(past, more, j);
      CollectLast(past + more[..j], c);
      var key := ChoiceKey(c);
      var acc := Get(r, key, EMPTY_CHOICE);
      if c.Choice? {
        var tools := CollectToolCalls(acc.tools, c.delta.toolCalls);
        acc := ChoiceAcc(acc.content + TextOf(c.delta.content), acc.reasoning + ReasoningOf(c.delta),
                         acc.refusal + TextOf(c.delta.refusal),
                         if c.finish.Str? then Some(c.finish.s) else acc.finish, tools);
      }
      r := Put(r, key, acc);
    }
  }

  /** collectChatCompletion: one accumulator per choice index, in order of first appearance. */
  method CollectChatCompletion(chunks: seq<Chunk>) returns (choices: seq<Slot<ChoiceAcc>>)
    ensures choices == Collect(Flat(chunks))
  {
    choices := [];
    TakeEnds([], chunks);
    assert Collect(Flat([])) == [];
    hide Collect;
    for n := 0 to |chunks|
      invariant choices == Collect(Flat(chunks[..n]))
    {
      TakeNext([], chunks, n);
      choices := CollectChoices(choices, Flat(chunks[..n]), chunks[n].choices);
    }
  }

  lemma CollectLast(init: seq<ChoiceValue>, c: ChoiceValue)
    ensures Collect(init + [c]) == CollectChoice(Collect(init), c)
  {
    assert (init + [c])[..|init|] == init;
  }
}
