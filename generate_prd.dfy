/** The `generatePRD` function of amplify/functions/generatePRD/handler.ts:
    argument checks, the prompt template, the call to the language model,
    extraction of the JSON object from the model's reply, the required-key
    check and the `{success, data | error}` envelope returned as a string.

    The model call is a parameter `invoke` from prompt to reply; a `Run`
    records the prompt that was sent, so "no model call" is `prompt == None`. */
module GeneratePrd {
  import opened Wrappers
  import opened Text
  import opened Json
  import opened Schema

  // ---------------------------------------------------------------------------
  // Messages
  // ---------------------------------------------------------------------------

  const MissingTitle := "Missing required argument: title"
  const MissingIdea := "Missing required argument: idea"
  const MissingTargetMarket := "Missing required argument: target market"
  const InvalidFormat := "The AI model generated an invalid response format. Please try again."
  const DefaultFailure := "Failed to generate PRD"

  /** The message a thrown error reports: `error.message || 'Failed to generate PRD'`. */
  function ErrorMessage(message: string): string {
    if message == "" then DefaultFailure else message
  }

  // ---------------------------------------------------------------------------
  // Argument checks
  // ---------------------------------------------------------------------------

  /** The three guarded throws at the top of the handler, as written: the
      first tests `idea` but names `title`, so the second can never fire and
      `title` is never tested. */
  function CheckArguments(args: GeneratePrdArgs): Option<string> {
    if args.idea == "" then Some(MissingTitle)
    else if args.idea == "" then Some(MissingIdea)
    else if args.targetMarket == "" then Some(MissingTargetMarket)
    else None
  }

  // ---------------------------------------------------------------------------
  // The prompt
  // ---------------------------------------------------------------------------

  const Preamble := "You are a senior product manager creating a comprehensive Product Requirements Document (PRD).\n\nGenerate a structured PRD based on the following information:\n\n"
  const TitleHeader := "PRODUCT TITLE:\n"
  const IdeaHeader := "PRODUCT IDEA:\n"
  const MarketHeader := "TARGET MARKET:\n"
  const ConstraintsHeader := "CONSTRAINTS:\n"
  const ContextHeader := "ADDITIONAL CONTEXT:\n"

  // The closing instruction and the example of the required JSON shape, kept
  // in pieces split at the four quoted top-level keys.
  const ContractIntro := "CRITICAL: You must respond with ONLY valid JSON matching this exact schema. Do not include any markdown formatting, backticks, or introductory/explanatory text.\n\n{\n  "
  const OverviewKey := "\"productRequirements\""
  const OverviewExample := ": {\n    \"overview\": \"Clear 2-6 sentence product overview\",\n    \"goals\": [\"Goal 1\", \"Goal 2\", \"Goal 3\"],\n    \"successMetrics\": [\"Metric 1\", \"Metric 2\", \"Metric 3\"]\n  },\n  "
  const StoriesKey := "\"userStories\""
  const StoriesExample := ": [\n    {\n      \"role\": \"User role\",\n      \"action\": \"What they want to do\",\n      \"benefit\": \"Why they want to do it\",\n      \"acceptanceCriteria\": [\"Criterion 1\", \"Criterion 2\"]\n    }\n  ],\n  "
  const RisksKey := "\"risks\""
  const RisksExample := ": [\n    {\n      \"category\": \"Technical|Market|Operational|Financial\",\n      \"description\": \"Risk description\",\n      \"likelihood\": \"Low|Medium|High\",\n      \"impact\": \"Low|Medium|High\",\n      \"mitigation\": \"How to address this risk\"\n    }\n  ],\n  "
  const ScopeKey := "\"mvpScope\""
  const ScopeExample := ": {\n    \"inScope\": [\"Feature 1\", \"Feature 2\"],\n    \"outOfScope\": [\"Feature to defer\", \"Another to defer\"],\n    \"timeline\": \"Estimated timeline for MVP\",\n    \"assumptions\": [\"Assumption 1\", \"Assumption 2\"]\n  }\n}"
  const OutputContract := ContractIntro + OverviewKey + OverviewExample + StoriesKey + StoriesExample
    + RisksKey + RisksExample + ScopeKey + ScopeExample

  /** An optional section: header, value and newline when the value is truthy, else nothing. */
  function Block(header: string, value: Option<string>): string {
    if value.Some? && value.value != "" then header + value.value + "\n" else ""
  }

  /** The template with its fixed opening and closing text as parameters. */
  function Fill(preamble: string, contract: string, args: GeneratePrdArgs): string {
    preamble + (TitleHeader + args.title) + "\n\n" + (IdeaHeader + args.idea) + "\n\n"
    + (MarketHeader + args.targetMarket) + "\n\n"
    + Block(ConstraintsHeader, args.constraints) + "\n"
    + Block(ContextHeader, args.additionalContext) + "\n\n" + contract
  }

  /** `buildPrompt`: the template with the five arguments filled in. */
  function BuildPrompt(args: GeneratePrdArgs): string {
    Fill(Preamble, OutputContract, args)
  }

  /** The three required fields appear under their headers in order, after the
      preamble, and the prompt ends with the contract. */
  ghost predicate FieldsInOrder(p: string, preamble: string, contract: string, args: GeneratePrdArgs) {
    OccursAt(p, preamble, 0) &&
    (exists i, j, k ::
      OccursAt(p, TitleHeader + args.title, i) &&
      OccursAt(p, IdeaHeader + args.idea, j) &&
      OccursAt(p, MarketHeader + args.targetMarket, k) &&
      i + |TitleHeader + args.title| < j && j + |IdeaHeader + args.idea| < k) &&
    OccursAt(p, contract, |p| - |contract|)
  }

  lemma FillFieldsInOrder(preamble: string, contract: string, args: GeneratePrdArgs)
    ensures FieldsInOrder(Fill(preamble, contract, args), preamble, contract, args)
  {
    var t, d := TitleHeader + args.title, IdeaHeader + args.idea;
    var i := |preamble|;
    var j := i + |t| + 2;
    var k := j + |d| + 2;
    FillPreamble(preamble, contract, args);
    FillTitle(preamble, contract, args);
    FillIdea(preamble, contract, args);
    FillMarket(preamble, contract, args);
    FillContract(preamble, contract, args);
  }

  lemma FillPreamble(preamble: string, contract: string, args: GeneratePrdArgs)
    ensures OccursAt(Fill(preamble, contract, args), preamble, 0)
  {
    var p := Fill(preamble, contract, args);
    assert p[..|preamble|] == preamble;
  }

  lemma FillTitle(preamble: string, contract: string, args: GeneratePrdArgs)
    ensures OccursAt(Fill(preamble, contract, args), TitleHeader + args.title, |preamble|)
  {
    var p := Fill(preamble, contract, args);
    var t := TitleHeader + args.title;
    assert p[|preamble|..|preamble| + |t|] == t;
  }

  lemma FillIdea(preamble: string, contract: string, args: GeneratePrdArgs)
    ensures OccursAt(Fill(preamble, contract, args), IdeaHeader + args.idea,
                     |preamble| + |TitleHeader + args.title| + 2)
  {
    var front := preamble + (TitleHeader + args.title) + "\n\n";
    var d := IdeaHeader + args.idea;
    EndPiece(front, d);
    var x := front + d;
    x := Extend(x, d, |front|, "\n\n");
    x := Extend(x, d, |front|, MarketHeader + args.targetMarket);
    x := Extend(x, d, |front|, "\n\n");
    var b1, b2 := Block(ConstraintsHeader, args.constraints), Block(ContextHeader, args.additionalContext);
    ExtendTail(x, d, |front|, b1, b2, contract);
    assert Fill(preamble, contract, args) == x + b1 + "\n" + b2 + "\n\n" + contract;
  }

  lemma FillMarket(preamble: string, contract: string, args: GeneratePrdArgs)
    ensures OccursAt(Fill(preamble, contract, args), MarketHeader + args.targetMarket,
                     |preamble| + |TitleHeader + args.title| + 2 + |IdeaHeader + args.idea| + 2)
  {
    var front := preamble + (TitleHeader + args.title) + "\n\n" + (IdeaHeader + args.idea) + "\n\n";
    var m := MarketHeader + args.targetMarket;
    EndPiece(front, m);
    var x := front + m;
    x := Extend(x, m, |front|, "\n\n");
    var b1, b2 := Block(ConstraintsHeader, args.constraints), Block(ContextHeader, args.additionalContext);
    ExtendTail(x, m, |front|, b1, b2, contract);
    assert Fill(preamble, contract, args) == x + b1 + "\n" + b2 + "\n\n" + contract;
  }

  /** A piece written last is found right after what precedes it. */
  lemma EndPiece(a: string, b: string)
    ensures OccursAt(a + b, b, |a|)
  {
    assert (a + b)[|a|..|a| + |b|] == b;
  }

  /** Appending text keeps every earlier occurrence in place. */
  lemma Extend(a: string, b: string, i: int, c: string) returns (r: string)
    requires OccursAt(a, b, i)
    ensures r == a + c && OccursAt(r, b, i)
  {
    r := a + c;
    assert r[i..i + |b|] == a[i..i + |b|];
  }

  /** The optional blocks and the contract that close the template keep the
      occurrences before them. */
  lemma ExtendTail(x: string, b: string, i: int, b1: string, b2: string, contract: string)
    requires OccursAt(x, b, i)
    ensures OccursAt(x + b1 + "\n" + b2 + "\n\n" + contract, b, i)
  {
    var y := Extend(x, b, i, b1);
    y := Extend(y, b, i, "\n");
    y := Extend(y, b, i, b2);
    y := Extend(y, b, i, "\n\n");
    y := Extend(y, b, i, contract);
  }

  lemma FillContract(preamble: string, contract: string, args: GeneratePrdArgs)
    ensures var p := Fill(preamble, contract, args); OccursAt(p, contract, |p| - |contract|)
  {
    var p := Fill(preamble, contract, args);
    assert p[|p| - |contract|..] == contract;
  }

  /** The prompt opens with the preamble, carries the title, the idea and the
      target market verbatim under their headers in that order, and ends with
      the output contract. */
  lemma PromptFieldsInOrder(args: GeneratePrdArgs)
    ensures FieldsInOrder(BuildPrompt(args), Preamble, OutputContract, args)
  {
    FillFieldsInOrder(Preamble, OutputContract, args);
  }

  /** `p` is `bare` with `block` inserted at position `n`. */
  predicate InsertedAt(p: string, bare: string, block: string, n: int) {
    0 <= n <= |bare| && p == bare[..n] + block + bare[n..]
  }

  /** An optional section of the template is present exactly when its value is
      truthy: then the text is the text without it with the block inserted;
      otherwise the two are equal. */
  ghost predicate SectionIff(p: string, bare: string, header: string, value: Option<string>) {
    if value.Some? && value.value != "" then
      exists n :: InsertedAt(p, bare, header + value.value + "\n", n)
    else p == bare
  }

  lemma FillConstraints(preamble: string, contract: string, args: GeneratePrdArgs)
    ensures SectionIff(Fill(preamble, contract, args), Fill(preamble, contract, args.(constraints := None)),
                       ConstraintsHeader, args.constraints)
  {
    var bare := Fill(preamble, contract, args.(constraints := None));
    var front := preamble + (TitleHeader + args.title) + "\n\n" + (IdeaHeader + args.idea) + "\n\n"
      + (MarketHeader + args.targetMarket) + "\n\n";
    var back := "\n" + Block(ContextHeader, args.additionalContext) + "\n\n" + contract;
    var block := Block(ConstraintsHeader, args.constraints);
    assert Fill(preamble, contract, args) == front + block + back;
    assert bare == front + back;
    if block != "" {
      assert bare[..|front|] == front && bare[|front|..] == back;
      assert InsertedAt(Fill(preamble, contract, args), bare, block, |front|);
    }
  }

  lemma FillContext(preamble: string, contract: string, args: GeneratePrdArgs)
    ensures SectionIff(Fill(preamble, contract, args), Fill(preamble, contract, args.(additionalContext := None)),
                       ContextHeader, args.additionalContext)
  {
    var bare := Fill(preamble, contract, args.(additionalContext := None));
    var front := preamble + (TitleHeader + args.title) + "\n\n" + (IdeaHeader + args.idea) + "\n\n"
      + (MarketHeader + args.targetMarket) + "\n\n" + Block(ConstraintsHeader, args.constraints) + "\n";
    var back := "\n\n" + contract;
    var block := Block(ContextHeader, args.additionalContext);
    assert Fill(preamble, contract, args) == front + block + back;
    assert bare == front + back;
    if block != "" {
      assert bare[..|front|] == front && bare[|front|..] == back;
      assert InsertedAt(Fill(preamble, contract, args), bare, block, |front|);
    }
  }

  /** The CONSTRAINTS section is present exactly when `constraints` is truthy;
      an absent value and an empty one give the same prompt. */
  lemma ConstraintsSection(args: GeneratePrdArgs)
    ensures SectionIff(BuildPrompt(args), BuildPrompt(args.(constraints := None)), ConstraintsHeader, args.constraints)
  {
    FillConstraints(Preamble, OutputContract, args);
  }

  /** Likewise the ADDITIONAL CONTEXT section and `additionalContext`. */
  lemma ContextSection(args: GeneratePrdArgs)
    ensures SectionIff(BuildPrompt(args), BuildPrompt(args.(additionalContext := None)), ContextHeader, args.additionalContext)
  {
    FillContext(Preamble, OutputContract, args);
  }

  lemma IncludesLast(a: string, b: string)
    ensures Includes(a + b, b)
  {
    assert (a + b)[|a|..|a| + |b|] == b;
    assert OccursAt(a + b, b, |a|);
    IncludesIff(a + b, b);
  }

  lemma IncludesExtend(x: string, b: string, needle: string)
    requires Includes(x, needle)
    ensures Includes(x + b, needle)
  {
    IncludesIff(x, needle);
    var i :| OccursAt(x, needle, i);
    assert (x + b)[i..i + |needle|] == x[i..i + |needle|];
    assert OccursAt(x + b, needle, i);
    IncludesIff(x + b, needle);
  }

  lemma KeysInPieces(intro: string, k1: string, e1: string, k2: string, e2: string,
                     k3: string, e3: string, k4: string, e4: string)
    ensures var c := intro + k1 + e1 + k2 + e2 + k3 + e3 + k4 + e4;
      Includes(c, k1) && Includes(c, k2) && Includes(c, k3) && Includes(c, k4)
  {
    var c1 := intro + k1;
    var c2 := c1 + e1 + k2;
    var c3 := c2 + e2 + k3;
    var c4 := c3 + e3 + k4;
    IncludesLast(intro, k1);
    IncludesLast(c1 + e1, k2);
    IncludesLast(c2 + e2, k3);
    IncludesLast(c3 + e3, k4);
    IncludesExtend(c1, e1, k1);
    IncludesExtend(c1 + e1, k2, k1);
    IncludesExtend(c2, e2, k1);
    IncludesExtend(c2, e2, k2);
    IncludesExtend(c2 + e2, k3, k1);
    IncludesExtend(c2 + e2, k3, k2);
    IncludesExtend(c3, e3, k1);
    IncludesExtend(c3, e3, k2);
    IncludesExtend(c3, e3, k3);
    IncludesExtend(c3 + e3, k4, k1);
    IncludesExtend(c3 + e3, k4, k2);
    IncludesExtend(c3 + e3, k4, k3);
    IncludesExtend(c4, e4, k1);
    IncludesExtend(c4, e4, k2);
    IncludesExtend(c4, e4, k3);
    IncludesExtend(c4, e4, k4);
  }

  /** The output contract names, quoted, each of the four keys the validator requires. */
  lemma ContractNamesRequiredKeys()
    ensures Includes(OutputContract, OverviewKey) && Includes(OutputContract, StoriesKey)
    ensures Includes(OutputContract, RisksKey) && Includes(OutputContract, ScopeKey)
  {
    KeysInPieces(ContractIntro, OverviewKey, OverviewExample, StoriesKey, StoriesExample,
                 RisksKey, RisksExample, ScopeKey, ScopeExample);
  }

  // ---------------------------------------------------------------------------
  // Extraction: text.match(/\{[\s\S]*\}/)
  // ---------------------------------------------------------------------------

  function FirstIndexOf(s: string, c: char): (r: Option<nat>)
    ensures r.Some? ==> r.value < |s| && s[r.value] == c && forall j :: 0 <= j < r.value ==> s[j] != c
    ensures r.None? ==> forall j :: 0 <= j < |s| ==> s[j] != c
  {
    if |s| == 0 then None
    else if s[0] == c then Some(0)
    else match FirstIndexOf(s[1..], c)
      case None => None
      case Some(i) => Some(i + 1)
  }

  function LastIndexOf(s: string, c: char): (r: Option<nat>)
    ensures r.Some? ==> r.value < |s| && s[r.value] == c && forall j :: r.value < j < |s| ==> s[j] != c
    ensures r.None? ==> forall j :: 0 <= j < |s| ==> s[j] != c
  {
    if |s| == 0 then None
    else if s[|s| - 1] == c then Some(|s| - 1)
    else LastIndexOf(s[..|s| - 1], c)
  }

  /** The regular expression matches: some `{` comes before some `}`. */
  predicate HasBraceSpan(text: string) {
    exists i, j :: 0 <= i < j < |text| && text[i] == '{' && text[j] == '}'
  }

  predicate Lacks(s: string, c: char) {
    forall i :: 0 <= i < |s| ==> s[i] != c
  }

  /** The candidate the handler parses: from the first `{` to the last `}`
      inclusive when the expression matches, otherwise the whole text. */
  function Extract(text: string): string {
    match (FirstIndexOf(text, '{'), LastIndexOf(text, '}'))
    case (Some(i), Some(j)) => if i < j then text[i..j + 1] else text
    case _ => text
  }

  /** What the match selects: on a match, the piece of the text that starts at
      its first `{` and ends at its last `}`; otherwise the text itself. Either
      way the candidate is a piece of the text. */
  lemma ExtractSpec(text: string)
    ensures exists i :: OccursAt(text, Extract(text), i)
    ensures !HasBraceSpan(text) ==> Extract(text) == text
    ensures HasBraceSpan(text) ==>
      var c := Extract(text);
      |c| >= 2 && c[0] == '{' && c[|c| - 1] == '}' &&
      exists i :: OccursAt(text, c, i) && Lacks(text[..i], '{') && Lacks(text[i + |c|..], '}')
  {
    if HasBraceSpan(text) {
      ExtractMatchShape(text);
    } else {
      ExtractOnNoMatch(text);
      assert OccursAt(text, text, 0);
    }
  }

  /** The matching case of `ExtractSpec`. */
  lemma ExtractMatchShape(text: string)
    requires HasBraceSpan(text)
    ensures var c := Extract(text);
      |c| >= 2 && c[0] == '{' && c[|c| - 1] == '}' &&
      exists i :: OccursAt(text, c, i) && Lacks(text[..i], '{') && Lacks(text[i + |c|..], '}')
  {
    ExtractIsSpan(text);
    var a, b := FirstIndexOf(text, '{').value, LastIndexOf(text, '}').value;
    BeforeFirstLacks(text, '{');
    AfterLastLacks(text, '}');
    PieceShape(text, a, b, Extract(text));
  }

  /** A piece running from a `{` with none before it to a `}` with none after
      it. */
  lemma PieceShape(text: string, a: nat, b: nat, c: string)
    requires a < b < |text| && c == text[a..b + 1] && text[a] == '{' && text[b] == '}'
    requires Lacks(text[..a], '{') && Lacks(text[b + 1..], '}')
    ensures |c| >= 2 && c[0] == '{' && c[|c| - 1] == '}'
    ensures exists i :: OccursAt(text, c, i) && Lacks(text[..i], '{') && Lacks(text[i + |c|..], '}')
  {
    assert c[|c| - 1] == text[b];
    assert text[a + |c|..] == text[b + 1..];
    assert OccursAt(text, c, a);
  }

  /** Without a match the text is parsed whole. */
  lemma ExtractOnNoMatch(text: string)
    requires !HasBraceSpan(text)
    ensures Extract(text) == text
  {
    var first, last := FirstIndexOf(text, '{'), LastIndexOf(text, '}');
    if first.Some? && last.Some? {
      assert !(first.value < last.value);
    }
  }

  /** Nothing before the first occurrence of a character is that character. */
  lemma BeforeFirstLacks(text: string, ch: char)
    requires FirstIndexOf(text, ch).Some?
    ensures Lacks(text[..FirstIndexOf(text, ch).value], ch)
  {
  }

  /** Nothing after the last occurrence of a character is that character. */
  lemma AfterLastLacks(text: string, ch: char)
    requires LastIndexOf(text, ch).Some?
    ensures Lacks(text[LastIndexOf(text, ch).value + 1..], ch)
  {
  }

  /** On a match the candidate runs from the first `{` to the last `}`. */
  lemma ExtractIsSpan(text: string)
    requires HasBraceSpan(text)
    ensures FirstIndexOf(text, '{').Some? && LastIndexOf(text, '}').Some?
    ensures FirstIndexOf(text, '{').value < LastIndexOf(text, '}').value
    ensures Extract(text) == text[FirstIndexOf(text, '{').value..LastIndexOf(text, '}').value + 1]
  {
    BraceSpanBounds(text);
  }

  /** On a match the first `{` comes before the last `}`. */
  lemma BraceSpanBounds(text: string)
    requires HasBraceSpan(text)
    ensures FirstIndexOf(text, '{').Some? && LastIndexOf(text, '}').Some?
    ensures FirstIndexOf(text, '{').value < LastIndexOf(text, '}').value
  {
    var i, j :| 0 <= i < j < |text| && text[i] == '{' && text[j] == '}';
    assert FirstIndexOf(text, '{').value <= i;
    assert j <= LastIndexOf(text, '}').value;
  }

  /** Extracting from a candidate gives the candidate back. */
  lemma ExtractIdempotent(text: string)
    ensures Extract(Extract(text)) == Extract(text)
  {
    ExtractSpec(text);
    var c := Extract(text);
    if HasBraceSpan(text) {
      var i :| OccursAt(text, c, i) && Lacks(text[..i], '{') && Lacks(text[i + |c|..], '}');
      assert FirstIndexOf(c, '{') == Some(0);
      assert LastIndexOf(c, '}') == Some(|c| - 1);
      assert c[0..|c| - 1 + 1] == c;
    }
  }

  /** An object written between prose with no `{` before it and no `}` after
      it is extracted exactly. */
  lemma ExtractEmbedded(prefix: string, body: string, suffix: string)
    requires |body| >= 2 && body[0] == '{' && body[|body| - 1] == '}'
    requires Lacks(prefix, '{') && Lacks(suffix, '}')
    ensures Extract(prefix + body + suffix) == body
  {
    var text := prefix + body + suffix;
    var a, b := |prefix|, |prefix| + |body| - 1;
    assert text[a] == '{' && text[b] == '}';
    var first, last := FirstIndexOf(text, '{'), LastIndexOf(text, '}');
    assert first == Some(a) by {
      forall k | 0 <= k < a ensures text[k] != '{' { assert text[k] == prefix[k]; }
    }
    assert last == Some(b) by {
      forall k | b < k < |text| ensures text[k] != '}' { assert text[k] == suffix[k - b - 1]; }
    }
    assert text[a..b + 1] == body;
  }

  /** Greedy matching also swallows a stray `{` in the prose before the object:
      the candidate then starts at that brace, not at the object. */
  lemma ExtractTakesStrayBrace(prefix: string, body: string)
    requires |body| >= 2 && body[0] == '{' && body[|body| - 1] == '}'
    requires !Lacks(prefix, '{')
    ensures |Extract(prefix + body)| > |body|
  {
    var text := prefix + body;
    var k :| 0 <= k < |prefix| && prefix[k] == '{';
    assert text[k] == '{' && text[|text| - 1] == '}';
    var a := FirstIndexOf(text, '{').value;
    assert a <= k;
    assert LastIndexOf(text, '}') == Some(|text| - 1);
  }

  // ---------------------------------------------------------------------------
  // Validation
  // ---------------------------------------------------------------------------

  const RequiredKeys: seq<string> := ["productRequirements", "userStories", "risks", "mvpScope"]

  /** Why a reply was rejected; the handler reports both kinds with one message. */
  datatype SchemaError = Malformed(candidate: string) | MissingField(key: string)

  /** The loop over the required keys: the first key whose value is falsy. */
  function FirstMissing(parsed: Json, keys: seq<string>): (r: Option<string>)
    ensures r.None? <==> forall k :: k in keys ==> Truthy(Get(Some(parsed), k))
    ensures r.Some? ==> exists n :: (0 <= n < |keys| && keys[n] == r.value &&
      !Truthy(Get(Some(parsed), keys[n])) && forall m :: 0 <= m < n ==> Truthy(Get(Some(parsed), keys[m])))
  {
    if |keys| == 0 then None
    else if !Truthy(Get(Some(parsed), keys[0])) then Some(keys[0])
    else
      var r := FirstMissing(parsed, keys[1..]);
      assert forall k :: k in keys ==> k == keys[0] || k in keys[1..];
      if r.Some? then
        var n :| 0 <= n < |keys[1..]| && keys[1..][n] == r.value &&
          !Truthy(Get(Some(parsed), keys[1..][n])) && forall m :: 0 <= m < n ==> Truthy(Get(Some(parsed), keys[1..][m]));
        assert keys[n + 1] == r.value;
        assert forall m :: 1 <= m < n + 1 ==> keys[m] == keys[1..][m - 1];
        r
      else r
  }

  /** `parseAndValidateJSON`: extract, parse, check the required keys. */
  function ParseAndValidate(text: string): Result<Json, SchemaError> {
    var candidate := Extract(text);
    match Parse(candidate)
    case None => Err(Malformed(candidate))
    case Some(parsed) =>
      match FirstMissing(parsed, RequiredKeys)
      case Some(key) => Err(MissingField(key))
      case None => Ok(parsed)
  }

  /** Validation succeeds exactly when the candidate parses and each of the
      four required keys holds a truthy value, and it then returns the parsed
      value unchanged. */
  lemma ValidateIff(text: string)
    ensures ParseAndValidate(text).Ok? <==>
      Parse(Extract(text)).Some? && forall k :: k in RequiredKeys ==> Truthy(Get(Parse(Extract(text)), k))
    ensures ParseAndValidate(text).Ok? ==> Some(ParseAndValidate(text).value) == Parse(Extract(text))
    ensures ParseAndValidate(text).Err? && ParseAndValidate(text).error.MissingField? ==>
      ParseAndValidate(text).error.key in RequiredKeys
  {
    match Parse(Extract(text))
    case None =>
    case Some(parsed) =>
      var r := FirstMissing(parsed, RequiredKeys);
      if r.Some? {
        var n :| 0 <= n < |RequiredKeys| && RequiredKeys[n] == r.value;
      }
  }

  /** Keys are checked in order: an object whose `productRequirements` is
      truthy but that has no `userStories` is reported as missing `userStories`,
      whatever else it lacks. */
  lemma MissingUserStoriesReportedFirst(members: seq<Member>)
    requires Truthy(Lookup(members, "productRequirements"))
    requires Lookup(members, "userStories").None?
    ensures FirstMissing(Obj(members), RequiredKeys) == Some("userStories")
  {
    assert RequiredKeys[1..][1..] == ["risks", "mvpScope"];
  }

  lemma ObjectNeedsBrace(s: string)
    requires ParseValue(s).Some? && ParseValue(s).value.value.Obj?
    ensures !Lacks(s, '{')
  {
    var t := SkipWs(s);
    SkipWsSuffix(s);
    assert s[|s| - |t|] == t[0] == '{';
  }

  lemma {:induction false} SkipWsSuffix(s: string)
    ensures SkipWs(s) == s[|s| - |SkipWs(s)|..]
  {
    if |s| > 0 && IsWs(s[0]) {
      SkipWsSuffix(s[1..]);
    }
  }

  /** A reply without any `{` is rejected: it cannot hold an object, and
      nothing else carries the required keys. */
  lemma ProseRejected(text: string)
    requires Lacks(text, '{')
    ensures ParseAndValidate(text).Err?
  {
    ExtractSpec(text);
    assert !HasBraceSpan(text);
    match ParseValue(text)
    case None =>
    case Some(Parsed(v, rest)) =>
      if v.Obj? {
        ObjectNeedsBrace(text);
      } else {
        assert !Truthy(Get(Some(v), RequiredKeys[0]));
      }
  }

  // ---------------------------------------------------------------------------
  // The handler
  // ---------------------------------------------------------------------------

  /** What the model endpoint gives back: generated text, or a thrown error. */
  datatype ModelReply = Generated(text: string) | InvokeFailed(message: string)

  /** The two shapes of the handler's result. */
  datatype Envelope = Success(data: Json) | Failure(error: string)

  /** One handler run: the prompt sent to the model, if any, and the result. */
  datatype Run = Run(prompt: Option<string>, envelope: Envelope)

  function Handle(args: GeneratePrdArgs, invoke: string -> ModelReply): Run {
    match CheckArguments(args)
    case Some(message) => Run(None, Failure(ErrorMessage(message)))
    case None =>
      var prompt := BuildPrompt(args);
      match invoke(prompt)
      case InvokeFailed(message) => Run(Some(prompt), Failure(ErrorMessage(message)))
      case Generated(text) =>
        match ParseAndValidate(text)
        case Err(_) => Run(Some(prompt), Failure(ErrorMessage(InvalidFormat)))
        case Ok(output) => Run(Some(prompt), Success(output))
  }

  /** The object `JSON.stringify` is given. */
  function EnvelopeJson(e: Envelope): Json {
    match e
    case Success(data) => Obj([Member("success", Bool(true)), Member("data", data)])
    case Failure(error) => Obj([Member("success", Bool(false)), Member("error", Str(error))])
  }

  /** The string the mutation returns. */
  function HandlerResponse(args: GeneratePrdArgs, invoke: string -> ModelReply): string {
    Stringify(EnvelopeJson(Handle(args, invoke).envelope))
  }

  /** A falsy `idea` fails with the message about `title`, before any model call. */
  lemma FalsyIdeaReportsTitle(args: GeneratePrdArgs, invoke: string -> ModelReply)
    requires args.idea == ""
    ensures Handle(args, invoke) == Run(None, Failure(MissingTitle))
  {
  }

  /** With `idea` present, a falsy `targetMarket` fails before any model call. */
  lemma FalsyTargetMarketRejected(args: GeneratePrdArgs, invoke: string -> ModelReply)
    requires args.idea != "" && args.targetMarket == ""
    ensures Handle(args, invoke) == Run(None, Failure(MissingTargetMarket))
  {
  }

  /** The argument checks never report `idea` by name and never look at `title`:
      an empty title with idea and target market present reaches the model. */
  lemma TitleNeverChecked(args: GeneratePrdArgs, title: string, invoke: string -> ModelReply)
    ensures CheckArguments(args) != Some(MissingIdea)
    ensures CheckArguments(args.(title := title)) == CheckArguments(args)
    ensures args.idea != "" && args.targetMarket != "" ==> Handle(args, invoke).prompt == Some(BuildPrompt(args))
  {
  }

  /** Every failure after the model answered is the one fixed message; the
      per-key message and the raw reply never reach the caller. */
  lemma InvalidReplyMessage(args: GeneratePrdArgs, invoke: string -> ModelReply)
    requires CheckArguments(args).None?
    requires invoke(BuildPrompt(args)).Generated?
    requires ParseAndValidate(invoke(BuildPrompt(args)).text).Err?
    ensures Handle(args, invoke).envelope == Failure(InvalidFormat)
  {
  }

  /** A success carries exactly the validated object, unchanged. */
  lemma SuccessCarriesParsedReply(args: GeneratePrdArgs, invoke: string -> ModelReply)
    requires Handle(args, invoke).envelope.Success?
    ensures invoke(BuildPrompt(args)).Generated?
    ensures ParseAndValidate(invoke(BuildPrompt(args)).text) == Ok(Handle(args, invoke).envelope.data)
    ensures forall k :: k in RequiredKeys ==> Truthy(Get(Some(Handle(args, invoke).envelope.data), k))
  {
    ValidateIff(invoke(BuildPrompt(args)).text);
  }

  /** The returned string reads back as one of the two envelope shapes:
      `success` is true with `data`, or false with a non-empty `error`. */
  lemma ResponseShape(args: GeneratePrdArgs, invoke: string -> ModelReply)
    ensures var e := Handle(args, invoke).envelope;
      Parse(HandlerResponse(args, invoke)) == Some(EnvelopeJson(e)) &&
      Get(Some(EnvelopeJson(e)), "success") == Some(Bool(e.Success?)) &&
      (e.Success? ==> Get(Some(EnvelopeJson(e)), "data") == Some(e.data) && Get(Some(EnvelopeJson(e)), "error").None?) &&
      (e.Failure? ==> Get(Some(EnvelopeJson(e)), "error") == Some(Str(e.error)) && e.error != "" && Get(Some(EnvelopeJson(e)), "data").None?)
  {
    var e := Handle(args, invoke).envelope;
    EnvelopeShape(e);
    if e.Failure? {
      FailureNamed(args, invoke);
    }
  }

  /** Every failure the handler returns carries a message. */
  lemma FailureNamed(args: GeneratePrdArgs, invoke: string -> ModelReply)
    ensures Handle(args, invoke).envelope.Failure? ==> Handle(args, invoke).envelope.error != ""
  {
  }

  /** The envelope object reads back, with `success` and exactly one of `data`
      and `error`. */
  lemma EnvelopeShape(e: Envelope)
    ensures Parse(Stringify(EnvelopeJson(e))) == Some(EnvelopeJson(e))
    ensures Get(Some(EnvelopeJson(e)), "success") == Some(Bool(e.Success?))
    ensures e.Success? ==> Get(Some(EnvelopeJson(e)), "data") == Some(e.data) && Get(Some(EnvelopeJson(e)), "error").None?
    ensures e.Failure? ==> Get(Some(EnvelopeJson(e)), "error") == Some(Str(e.error)) && Get(Some(EnvelopeJson(e)), "data").None?
  {
    ParseStringify(EnvelopeJson(e));
  }

  /** A reply that wraps a complete PRD object in prose or code fences, with no
      `{` before it and no `}` after it, yields that object. */
  lemma WrappedReplyAccepted(args: GeneratePrdArgs, invoke: string -> ModelReply,
                             prefix: string, members: seq<Member>, suffix: string)
    requires args.idea != "" && args.targetMarket != ""
    requires invoke(BuildPrompt(args)) == Generated(prefix + Stringify(Obj(members)) + suffix)
    requires Lacks(prefix, '{') && Lacks(suffix, '}')
    requires forall k :: k in RequiredKeys ==> Truthy(Lookup(members, k))
    ensures Handle(args, invoke) == Run(Some(BuildPrompt(args)), Success(Obj(members)))
  {
    var body := Stringify(Obj(members));
    ExtractEmbedded(prefix, body, suffix);
    ParseStringify(Obj(members));
  }
}
