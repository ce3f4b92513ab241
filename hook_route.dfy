/**
 * The `POST /api/generate-hooks` handler: field validation, the prompt, one
 * call of the generative-text provider, and the parsing of its reply into a
 * list of hooks. The provider is a parameter (a total function from prompt to
 * outcome); JSON decoding and response plumbing are reduced to the values
 * the handler branches on and returns.
 */
module HookRoute {
  import opened JsString

  /** One field of the decoded request body. */
  datatype JsonField = Missing | Null | Str(value: string)

  /** JavaScript truthiness of a field, the test behind `!productDescription`. */
  function Truthy(f: JsonField): (truthy: bool)
    ensures !truthy <==> f == Missing || f == Null || f == Str("")
  {
    f.Str? && f.value != ""
  }

  /** What awaiting the provider yields: its reply text, or a thrown error. */
  datatype ProviderOutcome = Generated(text: string) | Failed

  datatype Body = PlainText(message: string) | HooksJson(hooks: seq<string>)

  datatype Response = Response(status: int, body: Body)

  /** One run of the handler: the response and every prompt it passed to the provider, in order. */
  datatype Handling = Handling(response: Response, prompts: seq<string>)

  const MissingFieldsMessage: string := "Missing product description or target audience"
  const GenerationFailedMessage: string := "Failed to generate hooks from AI"

  /**
   * A prompt template cut at its two interpolation holes: the text before
   * the product description, between the two fields, and after the audience.
   */
  datatype Template = Template(head: string, middle: string, tail: string)

  /** Substitutes both fields into the template, without escaping or length limit. */
  function Fill(t: Template, productDescription: string, targetAudience: string): string
  {
    t.head + productDescription + t.middle + targetAudience + t.tail
  }

  /** The prompt is the template's head, the description verbatim, the middle, the audience verbatim and the tail. */
  lemma FillLayout(t: Template, productDescription: string, targetAudience: string)
    ensures var prompt := Fill(t, productDescription, targetAudience);
      && |prompt| == |t.head| + |productDescription| + |t.middle| + |targetAudience| + |t.tail|
      && prompt[..|t.head|] == t.head
      && prompt[|t.head|..|t.head| + |productDescription|] == productDescription
      && prompt[|t.head| + |productDescription|..|t.head| + |productDescription| + |t.middle|] == t.middle
      && prompt[|t.head| + |productDescription| + |t.middle|..|prompt| - |t.tail|] == targetAudience
      && prompt[|prompt| - |t.tail|..] == t.tail
  {
  }

  /**
   * Without escaping, a prompt does not determine the fields: a product
   * description that contains the text between the holes reads the same as
   * a shorter one with a longer audience.
   */
  lemma FillAmbiguous(t: Template, a: string, b: string, c: string)
    ensures Fill(t, a + t.middle + b, c) == Fill(t, a, b + t.middle + c)
    ensures t.middle != "" ==> a + t.middle + b != a && c != b + t.middle + c
  {
    assert Fill(t, a + t.middle + b, c) == t.head + a + t.middle + b + t.middle + c + t.tail;
  }

  // The handler's template, whole, cut at `${productDescription}` and `${targetAudience}`:
  // `megaPrompt` is `Fill(SourceTemplate, productDescription, targetAudience)`.
  const SourceHead: string :=
    "\n" +
    "Act as an expert direct response copywriter and social media advertising strategist with a decade of experience crafting high-converting, attention-grabbing hooks and headlines for diverse industries and platforms. Your copy is known for its creativity, psychological acuity, and ability to drive engagement and action.\n" +
    "\n" +
    "I will provide you with:\n" +
    "1. PRODUCT_DESCRIPTION: \""

  const SourceMiddle: string := "\"\n2. TARGET_AUDIENCE_DESCRIPTION: \""

  const SourceTail: string :=
    "\"\n" +
    "\n" +
    "Your primary task is to generate TEN (10) distinct and compelling marketing hooks and headlines. These should be specifically tailored for use in social media advertisements (assume platforms like Facebook, Instagram, TikTok, and LinkedIn, aiming for broad appeal unless the target audience strongly suggests a specific platform's tone).\n" +
    "\n" +
    "CRITICAL INSTRUCTIONS FOR VARIETY AND ANGLES:\n" +
    "Ensure the generated hooks are highly varied and explore different psychological angles to maximize appeal and provide options for A/B testing. For each hook, aim to leverage one or more of the following approaches. Strive for a mix across the set of 10 hooks:\n" +
    "\n" +
    "* **Emotional Appeal:**\n" +
    "    * **Curiosity/Intrigue:** Make them *need* to know more (e.g., \"The one thing about [Product Category] they don't want you to know...\").\n" +
    "    * **FOMO (Fear Of Missing Out):** Hint at a limited opportunity or something popular they're missing.\n" +
    "    * **Hope/Aspiration:** Connect with their desires for a better future/self (e.g., \"Imagine finally achieving with...\").\n" +
    "    * **Pain Point Agitation/Solution:** Deepen the understanding of their problem, then pivot to the solution (e.g., \"Tired of [Problem]? Discover the [Adjective] way to...\").\n" +
    "* **Logical/Benefit-Driven Appeal:**\n" +
    "    * **Clear Benefit Statement:** Directly state a primary advantage (e.g., \"Save with [Product Name].\").\n" +
    "    * **Quantifiable Results:** Use numbers or specific outcomes where possible (e.g., \"Boost [Metric] by X% in Y days.\").\n" +
    "* **Question-Based Engagement:**\n" +
    "    * Ask provocative, rhetorical, or benefit-oriented questions that make the audience reflect or agree (e.g., \"What if you could without [Pain Point]?\").\n" +
    "\n" +
    "OUTPUT FORMATTING AND CONSTRAINTS:\n" +
    "* Present each of the 10 hooks on a new line.\n" +
    "* Prefix each hook with its primary angle in parentheses, e.g., \"(Curiosity):...\" or \"(Benefit-Driven):...\".\n" +
    "* Keep hooks concise, punchy, and impactful, ideally under 15-20 words.\n" +
    "* DO NOT: Generate generic, bland, overly clichéd, or uninspired hooks. Do not use placeholder text like \"[Your Product]\" in the final hooks.\n"

  const SourceTemplate: Template := Template(SourceHead, SourceMiddle, SourceTail)

  /** The handler's filter callback, `hook => hook.trim() !== ''`: the line shows something. */
  function NonBlank(line: string): (nonBlank: bool)
    ensures nonBlank <==> !AllWhitespace(line)
  {
    TrimEmptyIffAllWhitespace(line);
    Trim(line) != ""
  }

  /** `s.filter(keep)`: the elements that pass `keep`, unmodified, in order. */
  function Filter<T>(s: seq<T>, keep: T -> bool): (kept: seq<T>)
    ensures |kept| <= |s|
  {
    if s == [] then []
    else (if keep(s[0]) then [s[0]] else []) + Filter(s[1..], keep)
  }

  lemma FilterCons<T>(x: T, rest: seq<T>, keep: T -> bool)
    ensures Filter([x] + rest, keep) == (if keep(x) then [x] else []) + Filter(rest, keep)
  {
    assert ([x] + rest)[1..] == rest;
  }

  lemma ConsAppend<T>(a: seq<T>, b: seq<T>)
    requires a != []
    ensures a == [a[0]] + a[1..] && a + b == [a[0]] + (a[1..] + b)
  {
  }

  /** Filtering a concatenation filters each part: with FilterSingle, this fixes Filter completely. */
  lemma {:induction false} FilterAppend<T>(a: seq<T>, b: seq<T>, keep: T -> bool)
    ensures Filter(a + b, keep) == Filter(a, keep) + Filter(b, keep)
  {
    if a == [] {
      assert a + b == b;
    } else {
      FilterAppend(a[1..], b, keep);
      ConsAppend(a, b);
      FilterCons(a[0], a[1..], keep);
      FilterCons(a[0], a[1..] + b, keep);
    }
  }

  lemma FilterSingle<T>(x: T, keep: T -> bool)
    ensures Filter([x], keep) == if keep(x) then [x] else []
  {
    assert [x][1..] == [];
  }

  /** An element survives the filter exactly when it occurs and passes. */
  lemma {:induction false} FilterMembership<T>(s: seq<T>, keep: T -> bool, x: T)
    ensures x in Filter(s, keep) <==> x in s && keep(x)
  {
    if s != [] {
      FilterMembership(s[1..], keep, x);
      assert s == [s[0]] + s[1..];
    }
  }

  /** Positions of the elements the filter drops. */
  function Dropped<T>(s: seq<T>, keep: T -> bool): set<int>
  {
    set k | 0 <= k < |s| && !keep(s[k])
  }

  lemma DroppedSnoc<T>(init: seq<T>, last: T, keep: T -> bool)
    ensures Dropped(init + [last], keep) == Dropped(init, keep) + (if keep(last) then {} else {|init|})
  {
    var s := init + [last];
    var extra: set<int> := if keep(last) then {} else {|init|};
    forall k
      ensures k in Dropped(s, keep) <==> k in Dropped(init, keep) + extra
    {
      if 0 <= k < |init| {
        assert s[k] == init[k];
      }
    }
  }

  /** `n` elements of which `k` fail the test leave exactly `n - k`. */
  lemma {:induction false} FilterCount<T>(s: seq<T>, keep: T -> bool)
    ensures |Filter(s, keep)| == |s| - |Dropped(s, keep)|
  {
    if s != [] {
      var init := s[..|s| - 1];
      var last := s[|s| - 1];
      assert s == init + [last];
      FilterCount(init, keep);
      FilterAppend(init, [last], keep);
      FilterSingle(last, keep);
      DroppedSnoc(init, last, keep);
      assert |init| !in Dropped(init, keep);
    }
  }

  /** `text.split('\n').filter(hook => hook.trim() !== '')`. */
  function ParseHooks(text: string): (hooks: seq<string>)
    ensures |hooks| <= Occurrences(text, '\n') + 1
    ensures forall k | 0 <= k < |hooks| :: '\n' !in hooks[k] && !AllWhitespace(hooks[k])
  {
    var lines := Split(text, '\n');
    var hooks := Filter(lines, NonBlank);
    SplitCount(text, '\n');
    forall k | 0 <= k < |hooks|
      ensures '\n' !in hooks[k] && !AllWhitespace(hooks[k])
    {
      FilterMembership(lines, NonBlank, hooks[k]);
    }
    hooks
  }

  /** Parsing lines joined with newlines gives back exactly the non-blank ones, unmodified. */
  lemma ParseJoinedLines(lines: seq<string>)
    requires |lines| >= 1
    requires forall k | 0 <= k < |lines| :: '\n' !in lines[k]
    ensures ParseHooks(Join(lines, '\n')) == Filter(lines, NonBlank)
  {
    JoinSplit(lines, '\n');
  }

  lemma ParseEmptyText()
    ensures ParseHooks("") == []
  {
    assert Split("", '\n') == [""];
    TrimEmptyIffAllWhitespace("");
  }

  /**
   * The handler, for a given template. Missing fields answer 400 before the
   * provider is reached; otherwise the provider gets the filled template
   * once, and its failure answers 500 while its text answers 200 with the
   * parsed hooks.
   */
  function Handle(t: Template, productDescription: JsonField, targetAudience: JsonField,
                  provider: string -> ProviderOutcome): (h: Handling)
    ensures !Truthy(productDescription) || !Truthy(targetAudience) ==>
      h == Handling(Response(400, PlainText(MissingFieldsMessage)), [])
    ensures Truthy(productDescription) && Truthy(targetAudience) ==>
      h.prompts == [Fill(t, productDescription.value, targetAudience.value)]
    ensures h.response.status == 500 <==> h.response == Response(500, PlainText(GenerationFailedMessage))
    ensures h.response.status == 200 <==> h.response.body.HooksJson?
    ensures h.response.status in {200, 400, 500}
  {
    if !Truthy(productDescription) || !Truthy(targetAudience) then
      Handling(Response(400, PlainText(MissingFieldsMessage)), [])
    else
      var prompt := Fill(t, productDescription.value, targetAudience.value);
      match provider(prompt)
      case Failed => Handling(Response(500, PlainText(GenerationFailedMessage)), [prompt])
      case Generated(text) => Handling(Response(200, HooksJson(ParseHooks(text))), [prompt])
  }

  /** `POST(req)`: the handler with the route's own template. */
  function Post(productDescription: JsonField, targetAudience: JsonField,
                provider: string -> ProviderOutcome): (h: Handling)
    ensures !Truthy(productDescription) || !Truthy(targetAudience) ==>
      h == Handling(Response(400, PlainText(MissingFieldsMessage)), [])
    ensures Truthy(productDescription) && Truthy(targetAudience) ==>
      var prompt := Fill(SourceTemplate, productDescription.value, targetAudience.value);
      h.prompts == [prompt]
      && (provider(prompt).Failed? ==> h.response == Response(500, PlainText(GenerationFailedMessage)))
      && (provider(prompt).Generated? ==> h.response == Response(200, HooksJson(ParseHooks(provider(prompt).text))))
  {
    Handle(SourceTemplate, productDescription, targetAudience, provider)
  }

  /** With a missing field the provider is never consulted: any two providers give the same run. */
  lemma InvalidIgnoresProvider(t: Template, productDescription: JsonField, targetAudience: JsonField,
                               p1: string -> ProviderOutcome, p2: string -> ProviderOutcome)
    requires !Truthy(productDescription) || !Truthy(targetAudience)
    ensures Handle(t, productDescription, targetAudience, p1) == Handle(t, productDescription, targetAudience, p2)
    ensures Handle(t, productDescription, targetAudience, p1).prompts == []
  {
  }

  /** With valid fields the run depends on the provider only through its answer to the one prompt. */
  lemma ValidDependsOnOneAnswer(t: Template, productDescription: string, targetAudience: string,
                                p1: string -> ProviderOutcome, p2: string -> ProviderOutcome)
    requires productDescription != "" && targetAudience != ""
    requires p1(Fill(t, productDescription, targetAudience)) == p2(Fill(t, productDescription, targetAudience))
    ensures Handle(t, Str(productDescription), Str(targetAudience), p1)
            == Handle(t, Str(productDescription), Str(targetAudience), p2)
    ensures |Handle(t, Str(productDescription), Str(targetAudience), p1).prompts| == 1
  {
  }

  /** A failing provider yields the fixed 500 message and no hooks. */
  lemma FailureHasNoHooks(t: Template, productDescription: string, targetAudience: string,
                          provider: string -> ProviderOutcome)
    requires productDescription != "" && targetAudience != ""
    requires provider(Fill(t, productDescription, targetAudience)) == Failed
    ensures Handle(t, Str(productDescription), Str(targetAudience), provider).response
            == Response(500, PlainText(GenerationFailedMessage))
  {
  }

  /** A provider reply is answered with status 200 and the parsed hooks. */
  lemma TextAnswered(t: Template, productDescription: string, targetAudience: string,
                     provider: string -> ProviderOutcome, text: string)
    requires productDescription != "" && targetAudience != ""
    requires provider(Fill(t, productDescription, targetAudience)) == Generated(text)
    ensures Handle(t, Str(productDescription), Str(targetAudience), provider).response
            == Response(200, HooksJson(ParseHooks(text)))
  {
  }

  /** A provider reply is answered with status 200 and exactly the non-blank lines of the reply, unmodified. */
  lemma ReplyAnswered(t: Template, productDescription: string, targetAudience: string,
                      provider: string -> ProviderOutcome, lines: seq<string>)
    requires productDescription != "" && targetAudience != ""
    requires |lines| >= 1 && forall k | 0 <= k < |lines| :: '\n' !in lines[k]
    requires provider(Fill(t, productDescription, targetAudience)) == Generated(Join(lines, '\n'))
    ensures Handle(t, Str(productDescription), Str(targetAudience), provider).response
            == Response(200, HooksJson(Filter(lines, NonBlank)))
  {
    ParseJoinedLines(lines);
  }

  /** An empty provider reply still succeeds, with no hooks. */
  lemma EmptyReplySucceeds(t: Template, productDescription: string, targetAudience: string,
                           provider: string -> ProviderOutcome)
    requires productDescription != "" && targetAudience != ""
    requires provider(Fill(t, productDescription, targetAudience)) == Generated("")
    ensures Handle(t, Str(productDescription), Str(targetAudience), provider).response
            == Response(200, HooksJson([]))
  {
    ParseEmptyText();
  }

  lemma NonBlankExtend(line: string, more: string)
    requires NonBlank(line)
    ensures NonBlank(line + more)
  {
    if AllWhitespace(line + more) {
      forall k | 0 <= k < |line|
        ensures IsWhitespace(line[k])
      {
        assert (line + more)[k] == line[k];
      }
    }
  }

  lemma ParseThreeLines(x: string, y: string, z: string)
    requires '\n' !in x && '\n' !in y && '\n' !in z
    ensures ParseHooks(Join([x, y, z], '\n')) == Filter([x, y, z], NonBlank)
  {
    var lines := [x, y, z];
    forall k | 0 <= k < |lines|
      ensures '\n' !in lines[k]
    {
      assert lines[k] in {x, y, z};
    }
    ParseJoinedLines(lines);
  }

  lemma ParseFourLines(w: string, x: string, y: string, z: string)
    requires '\n' !in w && '\n' !in x && '\n' !in y && '\n' !in z
    ensures ParseHooks(Join([w, x, y, z], '\n')) == Filter([w, x, y, z], NonBlank)
  {
    var lines := [w, x, y, z];
    forall k | 0 <= k < |lines|
      ensures '\n' !in lines[k]
    {
      assert lines[k] in {w, x, y, z};
    }
    ParseJoinedLines(lines);
  }

  lemma KeepSecondBlankOfThree(x: string, y: string, z: string)
    requires NonBlank(x) && !NonBlank(y) && NonBlank(z)
    ensures Filter([x, y, z], NonBlank) == [x, z]
  {
    FilterCons(x, [y, z], NonBlank);
    FilterCons(y, [z], NonBlank);
    FilterCons(z, [], NonBlank);
  }

  /**
   * Kept lines are not trimmed: in a reply whose lines end with `\r\n`, each
   * hook keeps its carriage return, and a line holding only `\r` is dropped.
   */
  lemma CarriageReturnsKept(a: string, b: string)
    requires SingleHookLine(a) && SingleHookLine(b)
    ensures ParseHooks(Join([a + "\r", "\r", b], '\n')) == [a + "\r", b]
  {
    NonBlankExtend(a, "\r");
    ParseThreeLines(a + "\r", "\r", b);
    KeepSecondBlankOfThree(a + "\r", "\r", b);
  }

  lemma KeepThirdBlankOfFour(a: string, b: string, c: string, d: string)
    requires NonBlank(a) && NonBlank(b) && !NonBlank(c) && NonBlank(d)
    ensures Filter([a, b, c, d], NonBlank) == [a, b, d]
  {
    FilterCons(a, [b, c, d], NonBlank);
    FilterCons(b, [c, d], NonBlank);
    FilterCons(c, [d], NonBlank);
    FilterCons(d, [], NonBlank);
  }

  /** A line the parser returns unchanged as a hook: one line, not blank. */
  predicate SingleHookLine(line: string)
  {
    '\n' !in line && NonBlank(line)
  }

  /** A reply of three hooks with an empty line between the second and the third gives exactly the three hooks. */
  lemma ParseBlankBetween(a: string, b: string, d: string)
    requires SingleHookLine(a) && SingleHookLine(b) && SingleHookLine(d)
    ensures ParseHooks(Join([a, b, "", d], '\n')) == [a, b, d]
  {
    assert AllWhitespace("");
    ParseFourLines(a, b, "", d);
    KeepThirdBlankOfFour(a, b, "", d);
  }

  /**
   * The sourdough request: when the provider answers the filled prompt with
   * three hook lines and an empty line between the second and the third,
   * the route answers 200 with the three hooks, in order.
   */
  lemma SourdoughReply(t: Template, provider: string -> ProviderOutcome, a: string, b: string, d: string)
    requires SingleHookLine(a) && SingleHookLine(b) && SingleHookLine(d)
    requires provider(Fill(t, "An online sourdough baking course", "busy moms")) == Generated(Join([a, b, "", d], '\n'))
    ensures Handle(t, Str("An online sourdough baking course"), Str("busy moms"), provider).response
            == Response(200, HooksJson([a, b, d]))
  {
    TextAnswered(t, "An online sourdough baking course", "busy moms", provider, Join([a, b, "", d], '\n'));
    ParseBlankBetween(a, b, d);
  }
}
