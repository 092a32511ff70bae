/** The provider-facing service: response normalisation, request shaping, grounding sources,
    and the two request flows `generateViralTitles` and `generateResearchField`. The provider,
    `JSON.parse` and the regular-expression fallback are parameters (oracles). */
module GeminiService {
  import opened Types
  import opened Strings

  /** What the service functions throw. */
  datatype ServiceError =
    | MissingApiKey                     // no API key configured: thrown before any request
    | ProviderFailure(message: string)  // the provider call rejected
    | NoContent                         // the reply carried no text
    | MalformedJson                     // `JSON.parse` threw
    | TrendFormatFailure                // the one message every trend-mode failure is rethrown with

  // ---------------------------------------------------------------------------
  // Response normalisation (`cleanJsonString`)
  // ---------------------------------------------------------------------------

  /** Three backticks start at position `i`. */
  predicate FenceAt(s: string, i: int) {
    0 <= i && i + 3 <= |s| && s[i] == '`' && s[i + 1] == '`' && s[i + 2] == '`'
  }

  predicate HasFence(s: string) {
    exists i | 0 <= i < |s| :: FenceAt(s, i)
  }

  /** `s.replace(/```json\s*|```\s*\/g, "")`: scanning from the left, every fence is removed
      together with a "json" right after it and the white space that follows; the scan
      resumes after each removed match. */
  function StripFences(s: string): string
    decreases |s|
  {
    if FenceAt(s, 0) then
      var rest := if |s| >= 7 && s[3..7] == "json" then s[7..] else s[3..];
      StripFences(TrimStart(rest))
    else if s == [] then []
    else [s[0]] + StripFences(s[1..])
  }

  /** A kept backtick is never followed by two more in the output: the scan would have
      matched a fence at that backtick. */
  lemma NoFenceAfterKeptBacktick(s: string)
    requires s != [] && !FenceAt(s, 0)
    ensures !FenceAt([s[0]] + StripFences(s[1..]), 0)
  {
    var t := s[1..];
    if s[0] == '`' && t != [] && !FenceAt(t, 0) {
      if t[0] == '`' && |t| > 1 {
        var u := t[1..];
        assert u[0] != '`';
        assert !FenceAt(u, 0);
      }
    }
  }

  /** The fence-stripping pass leaves no "```" behind. */
  lemma {:induction false} StripFencesRemovesAll(s: string)
    ensures !HasFence(StripFences(s))
    decreases |s|
  {
    if FenceAt(s, 0) {
      var rest := if |s| >= 7 && s[3..7] == "json" then s[7..] else s[3..];
      StripFencesRemovesAll(TrimStart(rest));
    } else if s != [] {
      var tail := StripFences(s[1..]);
      var r := [s[0]] + tail;
      StripFencesRemovesAll(s[1..]);
      NoFenceAfterKeptBacktick(s);
      forall i | 0 <= i < |r| ensures !FenceAt(r, i) {
        if i > 0 {
          assert !FenceAt(tail, i - 1);
        }
      }
    }
  }

  /** Text without a fence goes through the stripping pass unchanged. */
  lemma {:induction false} StripFencesKeepsFenceFree(s: string)
    requires !HasFence(s)
    ensures StripFences(s) == s
    decreases |s|
  {
    if s != [] {
      assert !FenceAt(s, 0);
      assert !HasFence(s[1..]) by {
        forall i | 0 <= i < |s[1..]| ensures !FenceAt(s[1..], i) {
          assert !FenceAt(s, i + 1);
        }
      }
      StripFencesKeepsFenceFree(s[1..]);
    }
  }

  /** `cleanJsonString`: the text from the first `[` to the last `]` when both occur
      (with `substring`'s argument swap when the `]` comes first), otherwise the text with
      its markdown fences removed, trimmed. */
  function CleanJsonString(input: string): (r: string)
    ensures var first, last := IndexOf(input, '['), LastIndexOf(input, ']');
      first >= 0 && last >= 0 && first < last ==>
        r == input[first..last + 1] && r[0] == '[' && r[|r| - 1] == ']'
    ensures var first, last := IndexOf(input, '['), LastIndexOf(input, ']');
      first >= 0 && last >= 0 && last < first ==>
        r == input[last + 1..first] && '[' !in r && ']' !in r
    ensures '[' !in input || ']' !in input ==>
      r == Trim(StripFences(input)) && !HasFence(r) && NoSpaceEdges(r)
  {
    var firstBracket := IndexOf(input, '[');
    var lastBracket := LastIndexOf(input, ']');
    if firstBracket != -1 && lastBracket != -1 then
      SwappedSpanHasNoBracket(input, firstBracket, lastBracket);
      Substring(input, firstBracket, lastBracket + 1)
    else
      var stripped := StripFences(input);
      StripFencesRemovesAll(input);
      var i :| OccursAt(stripped, Trim(stripped), i);
      SliceFenceFree(stripped, Trim(stripped), i);
      Trim(stripped)
  }

  /** Between a `]` and the first `[` after it there is no bracket when that `]` is the last one. */
  lemma SwappedSpanHasNoBracket(input: string, first: int, last: int)
    requires first == IndexOf(input, '[') && first >= 0
    requires last == LastIndexOf(input, ']') && last >= 0
    ensures last < first ==> '[' !in input[last + 1..first] && ']' !in input[last + 1..first]
  {
    if last < first {
      var span := input[last + 1..first];
      forall j | 0 <= j < |span| ensures span[j] != '[' && span[j] != ']' {
        assert span[j] == input[..first][last + 1 + j];
        assert span[j] == input[last + 1..][j];
      }
    }
  }

  /** A slice of fence-free text is fence-free. */
  lemma SliceFenceFree(s: string, r: string, i: int)
    requires !HasFence(s) && OccursAt(s, r, i)
    ensures !HasFence(r)
  {
    forall j | 0 <= j < |r| ensures !FenceAt(r, j) {
      assert !FenceAt(s, i + j);
      if j + 3 <= |r| {
        assert s[i + j] == r[j] && s[i + j + 1] == r[j + 1] && s[i + j + 2] == r[j + 2];
      }
    }
  }

  /** With the `]` before the `[`, `substring` swaps its bounds: "]x[" gives "x". */
  lemma CleanJsonSwapExample()
    ensures CleanJsonString("]x[") == "x"
  {
    var s := "]x[";
    IndexOfIs(s, '[', 2);
    LastIndexOfIs(s, ']', 0);
    assert s[1..2] == "x";
  }

  // ---------------------------------------------------------------------------
  // Request shaping
  // ---------------------------------------------------------------------------

  datatype Tool = GoogleSearch

  /** The shape of one object of the structured reply. */
  datatype ObjectSchema = ObjectSchema(properties: seq<string>, required: seq<string>)

  datatype Schema = ArrayOf(items: ObjectSchema)

  const TitleFields: seq<string> := ["title", "explanation", "hookType"]

  /** `RESPONSE_SCHEMA`: an array of objects whose three fields are all required. */
  const ResponseSchema: Schema := ArrayOf(ObjectSchema(TitleFields, TitleFields))

  const JsonMimeType: string := "application/json"
  const TrendModel: string := "gemini-3-pro-preview"
  const StructuredModel: string := "gemini-2.5-flash"

  /** Stand-in for `PERSONA_PROMPT`, whose wording is not part of this model. */
  const PersonaPrompt: string := "PERSONA"

  datatype GenerationConfig = GenerationConfig(
    systemInstruction: string,
    responseMimeType: Option<string>,
    responseSchema: Option<Schema>,
    tools: Option<seq<Tool>>)

  datatype TitlesRequest = TitlesRequest(model: string, contents: string, config: GenerationConfig)

  /** The mode switch: search grounding in trend mode, a JSON schema and MIME type otherwise. */
  function TitlesConfig(useTrends: bool): (c: GenerationConfig)
    ensures c.systemInstruction == PersonaPrompt
    ensures c.tools.Some? <==> useTrends
    ensures c.responseMimeType.Some? <==> !useTrends
    ensures c.responseSchema.Some? <==> !useTrends
    ensures c.tools.Some? != (c.responseMimeType.Some? && c.responseSchema.Some?)
    ensures c.tools.Some? ==> c.tools.value == [GoogleSearch]
    ensures c.responseSchema.Some? ==> c.responseSchema.value == ResponseSchema && c.responseMimeType.value == JsonMimeType
  {
    GenerationConfig(
      PersonaPrompt,
      if useTrends then None else Some(JsonMimeType),
      if useTrends then None else Some(ResponseSchema),
      if useTrends then Some([GoogleSearch]) else None)
  }

  /** The model is chosen by the same flag as the configuration. */
  function TitlesModel(useTrends: bool): (m: string)
    ensures m == TrendModel <==> useTrends
  {
    if useTrends then TrendModel else StructuredModel
  }

  const NotInformed: string := "Não informado"

  /** `value || "Não informado"`: the empty string is falsy. */
  function Informed(value: string): (r: string)
    ensures r != ""
    ensures value != "" ==> r == value
    ensures value == "" ==> r == NotInformed
  {
    if value == "" then NotInformed else value
  }

  const UserSubjectLead: string := "Assunto Principal Definido pelo Usuário: "

  /** Stand-in for the opening of the auto-subject paragraph: its wording is not part of
      this model. */
  const AutoSubjectLead: string := "ATENÇÃO: escolha o Assunto Principal dentro do Nicho "

  /** The auto-subject paragraph: it names the niche, in quotes. */
  function AutoSubjectInstruction(niche: string): string {
    AutoSubjectLead + ("\"" + niche + "\"") + "."
  }

  /** The subject line of the prompt. */
  function SubjectInstruction(data: FormData): (r: string)
    ensures !data.autoSubject ==> r == UserSubjectLead + data.subject
    ensures data.autoSubject ==> Contains(r, "\"" + data.niche + "\"")
  {
    if data.autoSubject then
      ContainsInside(AutoSubjectLead, "\"" + data.niche + "\"", ".");
      AutoSubjectInstruction(data.niche)
    else UserSubjectLead + data.subject
  }

  /** One "- LABEL: value" line of the prompt. */
  function FieldLine(heading: string, value: string): string {
    "- " + heading + ": " + value + "\n"
  }

  /** The twelve research fields as rendered: label and value, an empty value as "Não informado". */
  function ResearchEntries(data: FormData): (es: seq<(string, string)>)
    ensures |es| == 12
    ensures forall k :: 0 <= k < 12 ==> es[k].1 != ""
  {
    [ ("DESEJOS", Informed(data.desires)),
      ("DORES/PROBLEMAS", Informed(data.pains)),
      ("MEDOS", Informed(data.fears)),
      ("CRENÇAS", Informed(data.beliefs)),
      ("HÁBITOS", Informed(data.habits)),
      ("CARACTERÍSTICAS", Informed(data.characteristics)),
      ("MÍDIA/REFERÊNCIAS", Informed(data.media)),
      ("TÉCNICAS", Informed(data.techniques)),
      ("PESSOAS", Informed(data.famousPeople)),
      ("INSTITUIÇÕES", Informed(data.institutions)),
      ("FERRAMENTAS", Informed(data.tools)),
      ("O QUE VIOLA EXPECTATIVAS", Informed(data.disruptions)) ]
  }

  /** The request configuration block, passed through as entered. */
  function RequestEntries(data: FormData): seq<(string, string)> {
    [ ("Objetivo", data.objective),
      ("Gatilho", data.trigger),
      ("Estrutura", data.structure),
      ("Tom", data.tone),
      ("Formato", data.contentType) ]
  }

  function Lines(es: seq<(string, string)>): string {
    if es == [] then "" else FieldLine(es[0].0, es[0].1) + Lines(es[1..])
  }

  /** Every entry's line appears in the rendered block. */
  lemma {:induction false} LinesContain(es: seq<(string, string)>, k: nat)
    requires k < |es|
    ensures Contains(Lines(es), FieldLine(es[k].0, es[k].1))
  {
    if k == 0 {
      ContainsInside("", FieldLine(es[0].0, es[0].1), Lines(es[1..]));
      assert "" + FieldLine(es[0].0, es[0].1) + Lines(es[1..]) == Lines(es);
    } else {
      LinesContain(es[1..], k - 1);
      ContainsWiden(FieldLine(es[0].0, es[0].1), Lines(es[1..]), "", FieldLine(es[k].0, es[k].1));
      assert FieldLine(es[0].0, es[0].1) + Lines(es[1..]) + "" == Lines(es);
    }
  }

  const PromptIntro: string := "DADOS DE PESQUISA DO USUÁRIO:\n"

  /** The subject line of the prompt. */
  function SubjectLine(subjectInstruction: string): string {
    "- " + subjectInstruction + "\n"
  }

  /** The template literal the prompt starts from, with the prose replaced by its headings. */
  function PromptBody(data: FormData, subjectInstruction: string): string {
    PromptIntro
    + FieldLine("Nicho", data.niche)
    + SubjectLine(subjectInstruction)
    + Lines(ResearchEntries(data))
    + Lines(RequestEntries(data))
  }

  /** What trend mode appends (stand-in wording): the niche to search for, and the demand for raw JSON. */
  function TrendInstructions(niche: string): string {
    "MODO TENDÊNCIAS: \"" + niche + "\"; APENAS JSON\n"
  }

  const StructuredTask: string := "TAREFA: 6 títulos\n"

  /** The closing part of the prompt, chosen by the mode. */
  function ModeInstructions(data: FormData): string {
    if data.useTrends then TrendInstructions(data.niche) else StructuredTask
  }

  /** The prompt `generateViralTitles` sends. */
  function TitlesPrompt(data: FormData): string {
    PromptBody(data, SubjectInstruction(data)) + ModeInstructions(data)
  }

  function TitlesRequestFor(data: FormData): TitlesRequest {
    TitlesRequest(TitlesModel(data.useTrends), TitlesPrompt(data), TitlesConfig(data.useTrends))
  }

  /** Every research field reaches the prompt, an empty one as "Não informado". */
  lemma PromptReportsResearch(data: FormData, k: nat)
    requires k < 12
    ensures Contains(TitlesPrompt(data), FieldLine(ResearchEntries(data)[k].0, ResearchEntries(data)[k].1))
  {
    var es := ResearchEntries(data);
    var head := PromptIntro + FieldLine("Nicho", data.niche) + SubjectLine(SubjectInstruction(data));
    var tail := Lines(RequestEntries(data)) + ModeInstructions(data);
    LinesContain(es, k);
    ContainsWiden(head, Lines(es), tail, FieldLine(es[k].0, es[k].1));
    assert head + Lines(es) + tail == TitlesPrompt(data);
  }

  /** The subject line reaches the prompt: the user's subject, or the auto-subject text. */
  lemma PromptCarriesSubject(data: FormData)
    ensures Contains(TitlesPrompt(data), SubjectLine(SubjectInstruction(data)))
  {
    ContainsThird(PromptIntro, FieldLine("Nicho", data.niche), SubjectLine(SubjectInstruction(data)),
      Lines(ResearchEntries(data)), Lines(RequestEntries(data)), ModeInstructions(data));
  }

  /** The third of six concatenated parts is contained in the whole. */
  lemma ContainsThird(p: string, q: string, r: string, s: string, t: string, u: string)
    ensures Contains(p + q + r + s + t + u, r)
  {
    ContainsInside(p + q, r, s + t + u);
    assert p + q + r + (s + t + u) == p + q + r + s + t + u;
  }

  // ---------------------------------------------------------------------------
  // Grounding sources
  // ---------------------------------------------------------------------------

  /** `chunk.web`, with its optional title and uri. */
  datatype WebChunk = WebChunk(title: Option<string>, uri: Option<string>)

  datatype GroundingChunk = GroundingChunk(web: Option<WebChunk>)

  const DefaultSourceTitle: string := "Fonte Web"

  /** `value || fallback` for an optional string. */
  function OrElse(value: Option<string>, fallback: string): (r: string)
    ensures value.Some? && value.value != "" ==> r == value.value
    ensures value.None? || value.value == "" ==> r == fallback
  {
    if value.Some? && value.value != "" then value.value else fallback
  }

  /** `{ title: web.title || "Fonte Web", uri: web.uri || "" }`. */
  function WebSource(w: WebChunk): (s: Source)
    ensures s.title != ""
  {
    Source(OrElse(w.title, DefaultSourceTitle), OrElse(w.uri, ""))
  }

  /** A chunk the filter keeps: it has `web` and a non-empty uri. */
  predicate Usable(c: GroundingChunk) {
    c.web.Some? && WebSource(c.web.value).uri != ""
  }

  /** `s` is the source built from one of the usable chunks. */
  predicate FromUsableChunk(chunks: seq<GroundingChunk>, s: Source) {
    exists j :: 0 <= j < |chunks| && Usable(chunks[j]) && s == WebSource(chunks[j].web.value)
  }

  lemma FromUsableChunkShift(chunks: seq<GroundingChunk>, s: Source)
    requires chunks != [] && FromUsableChunk(chunks[1..], s)
    ensures FromUsableChunk(chunks, s)
  {
    var j :| 0 <= j < |chunks[1..]| && Usable(chunks[1..][j]) && s == WebSource(chunks[1..][j].web.value);
    assert chunks[j + 1] == chunks[1..][j];
  }

  /** The `map`/`filter` over the grounding chunks: one source per usable chunk. */
  function ExtractSources(chunks: seq<GroundingChunk>): (r: seq<Source>)
    ensures |r| <= |chunks|
    ensures forall k :: 0 <= k < |r| ==> r[k].uri != "" && r[k].title != ""
    ensures forall k :: 0 <= k < |r| ==> FromUsableChunk(chunks, r[k])
  {
    if chunks == [] then []
    else
      var rest := ExtractSources(chunks[1..]);
      assert forall k :: 0 <= k < |rest| ==> FromUsableChunk(chunks, rest[k]) by {
        forall k | 0 <= k < |rest| ensures FromUsableChunk(chunks, rest[k]) {
          FromUsableChunkShift(chunks, rest[k]);
        }
      }
      if Usable(chunks[0]) then
        var r := [WebSource(chunks[0].web.value)] + rest;
        assert FromUsableChunk(chunks, r[0]);
        assert forall k :: 1 <= k < |r| ==> r[k] == rest[k - 1];
        r
      else rest
  }

  /** No usable chunk is lost: each one's source is in the list. */
  lemma {:induction false} ExtractSourcesComplete(chunks: seq<GroundingChunk>)
    ensures forall j :: 0 <= j < |chunks| && Usable(chunks[j]) ==> WebSource(chunks[j].web.value) in ExtractSources(chunks)
  {
    if chunks != [] {
      ExtractSourcesComplete(chunks[1..]);
      forall j | 1 <= j < |chunks| && Usable(chunks[j])
        ensures WebSource(chunks[j].web.value) in ExtractSources(chunks[1..])
      {
        assert chunks[1..][j - 1] == chunks[j];
      }
    }
  }

  /** The sources of a single chunk: its own source when it is usable, nothing otherwise. */
  lemma ExtractSourcesOne(c: GroundingChunk)
    ensures ExtractSources([c]) == if Usable(c) then [WebSource(c.web.value)] else []
  {
    assert [c][1..] == [];
  }

  /** The chunks are processed in order, each on its own: the sources of two runs of chunks
      are the sources of the first followed by those of the second. */
  lemma {:induction false} ExtractSourcesAppend(a: seq<GroundingChunk>, b: seq<GroundingChunk>)
    ensures ExtractSources(a + b) == ExtractSources(a) + ExtractSources(b)
  {
    if a == [] {
      assert a + b == b;
    } else {
      assert (a + b)[0] == a[0];
      assert (a + b)[1..] == a[1..] + b;
      ExtractSourcesAppend(a[1..], b);
    }
  }

  /** `titles.map(t => ({...t, sources}))` when there is at least one source. */
  function AttachSources(titles: seq<GeneratedTitle>, sources: seq<Source>): (r: seq<GeneratedTitle>)
    ensures |r| == |titles|
    ensures sources == [] ==> r == titles
    ensures sources != [] ==> forall i :: 0 <= i < |r| ==>
      r[i].sources == Some(sources) && r[i] == titles[i].(sources := Some(sources))
  {
    if |sources| > 0 then seq(|titles|, i requires 0 <= i < |titles| => titles[i].(sources := Some(sources)))
    else titles
  }

  // ---------------------------------------------------------------------------
  // generateViralTitles
  // ---------------------------------------------------------------------------

  /** What the provider returns: the text, if any, and the grounding chunks of the first candidate, if any. */
  datatype ProviderReply = ProviderReply(text: Option<string>, groundingChunks: Option<seq<GroundingChunk>>)

  /** A parsed reply: an array of titles, or any other value (taken to be one title). */
  datatype Json = JArray(items: seq<GeneratedTitle>) | JValue(value: GeneratedTitle)

  /** `response.text`, undefined read as empty. */
  function ReplyText(reply: ProviderReply): string {
    if reply.text.Some? then reply.text.value else ""
  }

  /** `...groundingChunks || []`. */
  function ReplySources(reply: ProviderReply): seq<Source> {
    ExtractSources(if reply.groundingChunks.Some? then reply.groundingChunks.value else [])
  }

  /** The trend-mode parse chain: parse the cleaned text; failing that, parse the match of the
      array-of-objects pattern in the raw text; failing that, nothing. */
  function TrendParse(text: string, parse: string -> Option<Json>, arrayPattern: string -> Option<string>): (p: Option<Json>)
    ensures parse(CleanJsonString(text)).Some? ==> p == parse(CleanJsonString(text))
    ensures parse(CleanJsonString(text)).None? && arrayPattern(text).None? ==> p.None?
    ensures parse(CleanJsonString(text)).None? && arrayPattern(text).Some? ==> p == parse(arrayPattern(text).value)
  {
    var first := parse(CleanJsonString(text));
    if first.Some? then first
    else if arrayPattern(text).Some? then parse(arrayPattern(text).value)
    else None
  }

  /** A parsed value as a list of titles: a non-array value becomes a one-element list. */
  function AsList(j: Json): (xs: seq<GeneratedTitle>)
    ensures j.JValue? ==> xs == [j.value]
    ensures j.JArray? ==> xs == j.items
  {
    match j
    case JArray(items) => items
    case JValue(x) => [x]
  }

  /** What `generateViralTitles` returns for a given provider reply, once the key is present. */
  function TitlesOutcome(
    useTrends: bool,
    reply: Result<ProviderReply, string>,
    parse: string -> Option<Json>,
    arrayPattern: string -> Option<string>): (r: Result<seq<GeneratedTitle>, ServiceError>)
    // every trend-mode failure surfaces as the one fixed message
    ensures useTrends && r.Err? ==> r.error == TrendFormatFailure
    // outside trend mode the provider's own error passes through, and so do the other two causes
    ensures !useTrends && reply.Err? ==> r == Err(ProviderFailure(reply.error))
    ensures !useTrends && reply.Ok? && ReplyText(reply.value) == "" ==> r == Err(NoContent)
    ensures !useTrends && reply.Ok? && ReplyText(reply.value) != "" ==>
      (parse(ReplyText(reply.value)).None? <==> r == Err(MalformedJson))
    // titles only come out of a reply with text
    ensures r.Ok? ==> reply.Ok? && ReplyText(reply.value) != ""
    // structured mode: the parsed value, as a list
    ensures !useTrends && r.Ok? ==>
      parse(ReplyText(reply.value)).Some? && r.value == AsList(parse(ReplyText(reply.value)).value)
    // trend mode: the recovered value, with the sources attached to every title when there are any
    ensures useTrends && r.Ok? ==>
      var p := TrendParse(ReplyText(reply.value), parse, arrayPattern);
      var sources := ReplySources(reply.value);
      && p.Some?
      && (sources == [] ==> r.value == AsList(p.value))
      && (sources != [] ==> p.value.JArray? && r.value == AttachSources(p.value.items, sources))
    // a reply with text that parses always yields titles: in structured mode whatever it parses to
    ensures !useTrends && reply.Ok? && ReplyText(reply.value) != "" && parse(ReplyText(reply.value)).Some? ==> r.Ok?
    // in trend mode any recovered value without sources, and a recovered array in every case
    ensures useTrends && reply.Ok? && ReplyText(reply.value) != "" ==>
      var p := TrendParse(ReplyText(reply.value), parse, arrayPattern);
      p.Some? && (p.value.JArray? || ReplySources(reply.value) == []) ==> r.Ok?
  {
    if reply.Err? then Err(if useTrends then TrendFormatFailure else ProviderFailure(reply.error))
    else
      var text := ReplyText(reply.value);
      if text == "" then Err(if useTrends then TrendFormatFailure else NoContent)
      else if !useTrends then
        (if parse(text).None? then Err(MalformedJson) else Ok(AsList(parse(text).value)))
      else
        var p := TrendParse(text, parse, arrayPattern);
        var sources := ReplySources(reply.value);
        if p.None? then Err(TrendFormatFailure)
        else if sources == [] then Ok(AsList(p.value))
        else if p.value.JArray? then Ok(AttachSources(p.value.items, sources))
        else Err(TrendFormatFailure)
  }

  /** In trend mode with at least one usable source, every returned title carries exactly
      that list of sources. */
  lemma TrendTitlesCarrySources(
    reply: Result<ProviderReply, string>,
    parse: string -> Option<Json>,
    arrayPattern: string -> Option<string>)
    requires reply.Ok? && ReplySources(reply.value) != []
    ensures var r := TitlesOutcome(true, reply, parse, arrayPattern);
      r.Ok? ==> forall i :: 0 <= i < |r.value| ==> r.value[i].sources == Some(ReplySources(reply.value))
  {
  }

  /** The request-building half of `generateViralTitles`: the subject instruction, the prompt
      grown by appending the mode's instructions, and the mode's model and configuration. */
  method BuildTitlesRequest(data: FormData) returns (request: TitlesRequest)
    ensures request == TitlesRequestFor(data)
    ensures request.model == TitlesModel(data.useTrends) && request.config == TitlesConfig(data.useTrends)
  {
    var isTrending := data.useTrends;
    var tools := if isTrending then Some([GoogleSearch]) else None;
    var responseMimeType := if isTrending then None else Some(JsonMimeType);
    var responseSchema := if isTrending then None else Some(ResponseSchema);

    var subjectInstruction := "";
    if data.autoSubject {
      subjectInstruction := AutoSubjectInstruction(data.niche);
    } else {
      subjectInstruction := UserSubjectLead + data.subject;
    }
    assert subjectInstruction == SubjectInstruction(data);

    var prompt := PromptBody(data, subjectInstruction);
    ghost var body := prompt;
    if isTrending {
      prompt := prompt + TrendInstructions(data.niche);
    } else {
      prompt := prompt + StructuredTask;
    }
    assert prompt == body + ModeInstructions(data);

    assert prompt == TitlesPrompt(data);
    var config := GenerationConfig(PersonaPrompt, responseMimeType, responseSchema, tools);
    assert config == TitlesConfig(isTrending);
    request := TitlesRequest(if isTrending then TrendModel else StructuredModel, prompt, config);
  }

  /** The reply-handling half of `generateViralTitles`: the provider's error, the empty-text
      check, the mode's parse chain and the attaching of sources. */
  method InterpretReply(
    isTrending: bool,
    reply: Result<ProviderReply, string>,
    parse: string -> Option<Json>,
    arrayPattern: string -> Option<string>)
    returns (r: Result<seq<GeneratedTitle>, ServiceError>)
    ensures r == TitlesOutcome(isTrending, reply, parse, arrayPattern)
  {
    if reply.Err? {
      // the catch block: trend mode replaces the error with its fixed message
      return Err(if isTrending then TrendFormatFailure else ProviderFailure(reply.error));
    }
    var outputText := ReplyText(reply.value);
    if outputText == "" {
      return Err(if isTrending then TrendFormatFailure else NoContent);
    }

    var titles: Json;
    if isTrending {
      var cleanText := CleanJsonString(outputText);
      var parsed := parse(cleanText);
      if parsed.None? {
        var found := arrayPattern(outputText);
        if found.None? {
          return Err(TrendFormatFailure);
        }
        parsed := parse(found.value);
        if parsed.None? {
          return Err(TrendFormatFailure);
        }
      }
      assert Some(parsed.value) == TrendParse(outputText, parse, arrayPattern);
      titles := parsed.value;
      var sources := ReplySources(reply.value);
      if |sources| > 0 {
        if titles.JValue? {
          // `titles.map` is not defined on a non-array value: the TypeError is caught
          return Err(TrendFormatFailure);
        }
        titles := JArray(AttachSources(titles.items, sources));
      }
    } else {
      var parsed := parse(outputText);
      if parsed.None? {
        return Err(MalformedJson);
      }
      titles := parsed.value;
    }

    if titles.JArray? {
      r := Ok(titles.items);
    } else {
      r := Ok([titles.value]);
    }
  }

  /** `generateViralTitles`. `provider` stands for the provider call, `parse` for `JSON.parse`
      (None when it throws) and `arrayPattern` for the `/\[\s*\{.*\}\s*\]/s` match. */
  method GenerateViralTitles(
    apiKey: string,
    data: FormData,
    provider: TitlesRequest -> Result<ProviderReply, string>,
    parse: string -> Option<Json>,
    arrayPattern: string -> Option<string>)
    returns (r: Result<seq<GeneratedTitle>, ServiceError>)
    ensures apiKey == "" ==> r == Err(MissingApiKey)
    ensures apiKey != "" ==> r == TitlesOutcome(data.useTrends, provider(TitlesRequestFor(data)), parse, arrayPattern)
  {
    if apiKey == "" {
      return Err(MissingApiKey);
    }
    var request := BuildTitlesRequest(data);
    var reply := provider(request);
    r := InterpretReply(data.useTrends, reply, parse, arrayPattern);
  }

  // ---------------------------------------------------------------------------
  // generateResearchField
  // ---------------------------------------------------------------------------

  /** Which of the three instructions the research prompt carries. */
  datatype ResearchFocus = CharacteristicsFocus | DisruptionFocus | GeneralFocus

  datatype ResearchRequest = ResearchRequest(
    model: string,
    fieldLabel: string,
    niche: string,
    subject: string,
    focus: ResearchFocus)

  /** The instruction chosen from the lower-cased label: characteristics first, then disruption. */
  function FocusFor(fieldLabel: string): (f: ResearchFocus)
    ensures var lower := ToLower(fieldLabel);
      && (f == CharacteristicsFocus <==> Contains(lower, "característica"))
      && (f == DisruptionFocus <==>
            !Contains(lower, "característica")
            && (Contains(lower, "viola") || Contains(lower, "disrupção") || Contains(lower, "expectativa")))
  {
    var lower := ToLower(fieldLabel);
    if Contains(lower, "característica") then CharacteristicsFocus
    else if Contains(lower, "viola") || Contains(lower, "disrupção") || Contains(lower, "expectativa") then DisruptionFocus
    else GeneralFocus
  }

  function ResearchRequestFor(niche: string, subject: string, fieldLabel: string): ResearchRequest {
    ResearchRequest(StructuredModel, fieldLabel, niche, subject, FocusFor(fieldLabel))
  }

  /** `generateResearchField`. `provider` stands for the provider call; its value is the reply
      text, if any. */
  method GenerateResearchField(
    apiKey: string,
    niche: string,
    subject: string,
    fieldLabel: string,
    provider: ResearchRequest -> Result<Option<string>, string>)
    returns (r: Result<string, ServiceError>)
    ensures apiKey == "" ==> r == Err(MissingApiKey)
    ensures apiKey != "" ==> var reply := provider(ResearchRequestFor(niche, subject, fieldLabel));
      && (reply.Err? ==> r == Err(ProviderFailure(reply.error)))
      && (reply.Ok? && reply.value.None? ==> r == Ok(""))
      && (reply.Ok? && reply.value.Some? ==> r == Ok(Trim(reply.value.value)))
    ensures r.Ok? ==> NoSpaceEdges(r.value)
  {
    if apiKey == "" {
      return Err(MissingApiKey);
    }
    var specificInstruction: ResearchFocus;
    var lowerLabel := ToLower(fieldLabel);
    if Contains(lowerLabel, "característica") {
      specificInstruction := CharacteristicsFocus;
    } else if Contains(lowerLabel, "viola") || Contains(lowerLabel, "disrupção") || Contains(lowerLabel, "expectativa") {
      specificInstruction := DisruptionFocus;
    } else {
      specificInstruction := GeneralFocus;
    }
    var reply := provider(ResearchRequest(StructuredModel, fieldLabel, niche, subject, specificInstruction));
    if reply.Err? {
      return Err(ProviderFailure(reply.error));
    }
    match reply.value {
      case None => r := Ok("");
      case Some(text) => r := Ok(Trim(text));
    }
  }
}
