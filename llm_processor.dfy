/** The client side of the generation service: choosing the prompt template
    that matches the connected model, composing prompts, the session key,
    and the check on operation names. The HTTP exchange itself is not part
    of this model; its answers are inputs. */
module LlmProcessor {
  import opened Wrappers
  import opened Values
  import opened Text
  import opened Configuration

  /** A conversational wrapper; `names` holds the aliases, a single name
      being a list of one. */
  datatype PromptTemplate = PromptTemplate(names: seq<string>, user: string, assistant: string, system: string)

  /** The nine templates in declaration order; index 0 is Alpaca, the default. */
  const Templates: seq<PromptTemplate> := [
    PromptTemplate(["Alpaca"], "\n\n### Instruction:\n\n", "\n\n### Response:\n\n", ""),
    PromptTemplate(["Vicuna", "Wizard", "ShareGPT", "Qwen"], "### Human: ", "\n### Assistant: ", ""),
    PromptTemplate(["Llama 2", "Llama2", "Llamav2"], "[INST] ", " [/INST]", ""),
    PromptTemplate(["Llama 3", "Llama3", "Llama-3"],
      "<|eot_id|><|start_header_id|>user<|end_header_id|>\n\n",
      "<|eot_id|><|start_header_id|>assistant<|end_header_id|>\n\n", ""),
    PromptTemplate(["Phi-3"], "<|end|><|user|>\n", "<end_of_turn><|end|><|assistant|>\n", ""),
    PromptTemplate(["Mistral", "bakllava"], "\n[INST] ", " [/INST]\n", ""),
    PromptTemplate(["Yi"], "<|user|>", "<|assistant|>", ""),
    PromptTemplate(["ChatML", "obsidian", "Nous", "Hermes", "llava-v1.6-34b"],
      "<|im_start|>user\n", "<|im_end|>\n<|im_start|>assistant\n", ""),
    PromptTemplate(["WizardLM"], "input:\n", "output\n", "")
  ]

  const MetadataInstruction: string :=
    "The following caption and metadata was given for an image. Use that to determine the title, IPTC keywords, summary, and subject. Return as JSON object with keys Title, Keywords, Summary, and Subject.\n"

  /** Every template has at least one alias. */
  predicate WellFormed(ts: seq<PromptTemplate>)
  {
    forall j :: 0 <= j < |ts| ==> ts[j].names != []
  }

  /** The characters that survive normalisation. */
  predicate IsNameChar(c: char)
  {
    'a' <= c <= 'z' || '0' <= c <= '9'
  }

  /** `re.sub(r"[^a-z0-9]", "", s.lower())`. */
  function Normalize(s: string): (r: string)
    ensures |r| <= |s|
    ensures forall c :: c in r ==> IsNameChar(c)
  {
    if s == [] then []
    else (if IsNameChar(LowerChar(s[0])) then [LowerChar(s[0])] else []) + Normalize(s[1..])
  }

  /** A single character normalises to its lower-case form when that is a
      name character, and to nothing otherwise; with `NormalizeConcat` this
      fixes `Normalize` on every text. */
  lemma NormalizeSingle(c: char)
    ensures Normalize([c]) == if IsNameChar(LowerChar(c)) then [LowerChar(c)] else []
  {
    assert [c][1..] == [];
  }

  /** A text made only of name characters is its own normal form: nothing
      that survives normalisation is dropped or reordered. */
  lemma {:induction false} NormalizeKeepsNames(s: string)
    requires forall c :: c in s ==> IsNameChar(c)
    ensures Normalize(s) == s
  {
    if s != [] {
      assert s[0] in s;
      assert forall c :: c in s[1..] ==> c in s;
      NormalizeKeepsNames(s[1..]);
      assert s == [s[0]] + s[1..];
    }
  }

  /** Normalising distributes over concatenation. */
  lemma {:induction false} NormalizeConcat(a: string, b: string)
    ensures Normalize(a + b) == Normalize(a) + Normalize(b)
  {
    if a == [] {
      assert a + b == b;
    } else {
      assert (a + b)[1..] == a[1..] + b;
      NormalizeConcat(a[1..], b);
    }
  }

  /** A normalised name is its own normal form. */
  lemma {:induction false} NormalizeIdempotent(s: string)
    ensures Normalize(Normalize(s)) == Normalize(s)
  {
    if s != [] {
      var head := if IsNameChar(LowerChar(s[0])) then [LowerChar(s[0])] else [];
      NormalizeIdempotent(s[1..]);
      NormalizeConcat(head, Normalize(s[1..]));
    }
  }

  /** Matching ignores letter case: names that agree after lower-casing
      normalise alike. */
  lemma {:induction false} NormalizeIgnoresCase(s: string, t: string)
    requires |s| == |t|
    requires forall k :: 0 <= k < |s| ==> LowerChar(s[k]) == LowerChar(t[k])
    ensures Normalize(s) == Normalize(t)
  {
    if s != [] {
      NormalizeIgnoresCase(s[1..], t[1..]);
    }
  }

  /** Matching ignores punctuation: a character outside `[a-z0-9]` after
      lower-casing can be dropped anywhere. */
  lemma NormalizeIgnoresPunctuation(a: string, c: char, b: string)
    requires !IsNameChar(LowerChar(c))
    ensures Normalize(a + [c] + b) == Normalize(a + b)
  {
    NormalizeConcat(a + [c], b);
    NormalizeConcat(a, [c]);
    NormalizeConcat(a, b);
  }

  /** Some alias of `t`, normalised, is a substring of the normalised model name. */
  predicate Matches(t: PromptTemplate, normalizedName: string)
  {
    exists k :: 0 <= k < |t.names| && Contains(normalizedName, Normalize(t.names[k]))
  }

  /** The ranking key: the normalised length of the first alias. */
  function KeyLength(t: PromptTemplate): nat
    requires t.names != []
  {
    |Normalize(t.names[0])|
  }

  /** `i` is the candidate `max(..., key=...)` picks among those flagged
      in `ms`: flagged, with the largest key, and the earliest among equal
      keys. */
  ghost predicate IsFirstMaximum(ms: seq<bool>, ks: seq<nat>, i: nat)
    requires |ms| == |ks|
  {
    && i < |ms| && ms[i]
    && (forall j :: 0 <= j < |ms| && ms[j] ==> ks[j] <= ks[i])
    && (forall j :: 0 <= j < i && ms[j] ==> ks[j] < ks[i])
  }

  /** Python's `max(..., key=..., default=None)` over the flagged candidates
      in order: a later candidate replaces the current one only with a
      strictly larger key. */
  function BestMatch(ms: seq<bool>, ks: seq<nat>): (r: Option<nat>)
    requires |ms| == |ks|
    ensures r.None? <==> forall j :: 0 <= j < |ms| ==> !ms[j]
    ensures r.Some? ==> IsFirstMaximum(ms, ks, r.value)
  {
    if ms == [] then None
    else
      var last := |ms| - 1;
      var best := BestMatch(ms[..last], ks[..last]);
      if !ms[last] then best
      else if best.None? then Some(last)
      else if ks[last] > ks[best.value] then Some(last)
      else best
  }

  /** Which templates match the normalised name `nm`. */
  function MatchFlags(ts: seq<PromptTemplate>, nm: string): (ms: seq<bool>)
    ensures |ms| == |ts| && forall j :: 0 <= j < |ts| ==> ms[j] == Matches(ts[j], nm)
  {
    seq(|ts|, j requires 0 <= j < |ts| => Matches(ts[j], nm))
  }

  /** The ranking keys of the templates. */
  function Keys(ts: seq<PromptTemplate>): (ks: seq<nat>)
    requires WellFormed(ts)
    ensures |ks| == |ts| && forall j :: 0 <= j < |ts| ==> ks[j] == KeyLength(ts[j])
  {
    seq(|ts|, j requires 0 <= j < |ts| => KeyLength(ts[j]))
  }

  /** `i` is the template `_get_model` picks for the normalised name `nm`:
      the first maximum among the matching ones, index 0 when none matches. */
  ghost predicate IsSelection(ts: seq<PromptTemplate>, nm: string, i: nat)
    requires WellFormed(ts)
  {
    && i < |ts|
    && if exists j :: 0 <= j < |ts| && Matches(ts[j], nm) then
         && Matches(ts[i], nm)
         && (forall j :: 0 <= j < |ts| && Matches(ts[j], nm) ==> KeyLength(ts[j]) <= KeyLength(ts[i]))
         && (forall j :: 0 <= j < i && Matches(ts[j], nm) ==> KeyLength(ts[j]) < KeyLength(ts[i]))
       else i == 0
  }

  /** The index of the template chosen for the normalised name `nm`. */
  function Select(ts: seq<PromptTemplate>, nm: string): (i: nat)
    requires WellFormed(ts) && ts != []
    ensures IsSelection(ts, nm, i)
  {
    var ms := MatchFlags(ts, nm);
    match BestMatch(ms, Keys(ts))
    case None => 0
    case Some(j) => j
  }

  lemma TemplatesWellFormed()
    ensures WellFormed(Templates) && |Templates| == 9
  {
  }

  /** The selection is a function of the name: at most one index qualifies. */
  lemma SelectionUnique(ts: seq<PromptTemplate>, nm: string, i: nat, j: nat)
    requires WellFormed(ts) && IsSelection(ts, nm, i) && IsSelection(ts, nm, j)
    ensures i == j
  {
  }

  /** `_get_model`: no template when the model query gave nothing (None or
      an empty name); otherwise the selected template, Alpaca when no alias
      matches. */
  function GetModel(modelName: Option<string>): (r: Option<PromptTemplate>)
    ensures r.None? <==> modelName.None? || modelName.value == ""
    ensures r.Some? ==> WellFormed(Templates)
    ensures r.Some? ==> exists i: nat :: IsSelection(Templates, Normalize(modelName.value), i) && r.value == Templates[i]
  {
    match modelName
    case None => None
    case Some(name) =>
      if name == "" then None
      else
        TemplatesWellFormed();
        NormalizeLower(name);
        var i := Select(Templates, Normalize(Lower(name)));
        Some(Templates[i])
  }

  /** The name is lower-cased twice in the source; the second time changes nothing. */
  lemma {:induction false} NormalizeLower(s: string)
    ensures Normalize(Lower(s)) == Normalize(s)
  {
    if s != [] {
      NormalizeLower(s[1..]);
      assert Lower(s)[1..] == Lower(s[1..]);
    }
  }

  /** `get_prompt`: user marker, instruction, content, assistant marker.
      Without a template the subscript raises a TypeError. */
  function GetPrompt(model: Option<PromptTemplate>, instruction: string, content: string): (r: Result<string, Exception>)
    ensures r.Err? <==> model.None?
    ensures r.Err? ==> r.error == TypeError
    ensures r.Ok? ==>
      var t := model.value;
      && |r.value| == |t.user| + |instruction| + |content| + |t.assistant|
      && r.value[..|t.user|] == t.user
      && r.value[|t.user|..|t.user| + |instruction|] == instruction
      && r.value[|t.user| + |instruction|..|r.value| - |t.assistant|] == content
      && r.value[|r.value| - |t.assistant|..] == t.assistant
  {
    match model
    case None => Err(TypeError)
    case Some(t) => Ok(t.user + instruction + content + t.assistant)
  }

  type Digit = d: int | 0 <= d <= 9

  function DigitChar(d: Digit): (c: char)
    ensures '0' <= c <= '9'
  {
    ('0' as int + d) as char
  }

  /** The value of a decimal digit character. */
  function DigitValue(c: char): Digit
    requires '0' <= c <= '9'
  {
    c as int - '0' as int
  }

  /** `_create_genkey`: "KCP" and four decimal digits; the four draws of
      `random.randint(0, 9)` are inputs. */
  function Genkey(d0: Digit, d1: Digit, d2: Digit, d3: Digit): (key: string)
    ensures |key| == 7 && key[..3] == "KCP"
    ensures forall k :: 3 <= k < 7 ==> '0' <= key[k] <= '9'
    ensures DigitValue(key[3]) == d0 && DigitValue(key[4]) == d1
    ensures DigitValue(key[5]) == d2 && DigitValue(key[6]) == d3
  {
    "KCP" + [DigitChar(d0), DigitChar(d1), DigitChar(d2), DigitChar(d3)]
  }

  /** The operation names `_call_api` accepts and their paths. */
  const ApiFunctionUrls: map<string, string> := map[
    "tokencount" := "/api/extra/tokencount",
    "interrogate" := "/api/v1/generate",
    "max_context_length" := "/api/extra/true_max_context_length",
    "check" := "/api/generate/check",
    "abort" := "/api/extra/abort",
    "version" := "/api/extra/version",
    "model" := "/api/v1/model",
    "generate" := "/api/v1/generate"
  ]

  /** The operations sent as POST; the others are sent as GET. */
  const PostFunctions: set<string> := {"tokencount", "generate", "check", "interrogate"}

  datatype HttpVerb = Get | Post

  datatype ApiRequest = ApiRequest(verb: HttpVerb, url: string)

  /** The part of `_call_api` before the transport: an unknown operation
      raises ValueError; a known one is sent to the service URL followed by
      its path, by POST or GET. */
  function ResolveApiCall(apiUrl: string, apiFunction: string): (r: Result<ApiRequest, Exception>)
    ensures r.Err? <==> apiFunction !in ApiFunctionUrls
    ensures r.Err? ==> r.error == ValueError("Invalid API function: " + apiFunction)
    ensures r.Ok? ==> |r.value.url| >= |apiUrl| && r.value.url[..|apiUrl|] == apiUrl
    ensures r.Ok? ==> r.value.url[|apiUrl|..] == ApiFunctionUrls[apiFunction]
    ensures r.Ok? ==> (r.value.verb == Post <==> apiFunction in PostFunctions)
  {
    if apiFunction !in ApiFunctionUrls then Err(ValueError("Invalid API function: " + apiFunction))
    else Ok(ApiRequest(if apiFunction in PostFunctions then Post else Get, apiUrl + ApiFunctionUrls[apiFunction]))
  }

  /** Every operation the processor issues is a known one, and captioning
      and structured generation share one endpoint. */
  lemma ProcessorCallsResolve(apiUrl: string)
    ensures forall f :: f in {"model", "max_context_length", "tokencount", "interrogate", "generate"} ==>
      ResolveApiCall(apiUrl, f).Ok?
    ensures ResolveApiCall(apiUrl, "interrogate") == ResolveApiCall(apiUrl, "generate")
  {
  }

  /** The processor after construction: its session key and its template
      are fixed for its lifetime. */
  datatype Processor = Processor(
    imageInstruction: string,
    apiUrl: string,
    genkey: string,
    model: Option<PromptTemplate>)

  /** `LLMProcessor.__init__`: the key from four digit draws, the template
      from the model query's answer. */
  function NewProcessor(config: Config, d0: Digit, d1: Digit, d2: Digit, d3: Digit, modelName: Option<string>): (p: Processor)
    ensures p.genkey == Genkey(d0, d1, d2, d3)
    ensures |p.genkey| == 7 && p.genkey[..3] == "KCP"
    ensures forall k :: 3 <= k < 7 ==> '0' <= p.genkey[k] <= '9'
    ensures DigitValue(p.genkey[3]) == d0 && DigitValue(p.genkey[4]) == d1
    ensures DigitValue(p.genkey[5]) == d2 && DigitValue(p.genkey[6]) == d3
    ensures p.model == GetModel(modelName)
    ensures p.model.None? <==> modelName.None? || modelName.value == ""
    ensures p.imageInstruction == config.imageInstruction && p.apiUrl == config.apiUrl
  {
    Processor(config.imageInstruction, config.apiUrl, Genkey(d0, d1, d2, d3), GetModel(modelName))
  }
}
