/**
 * The form page: the copy transform applied to a displayed hook, the rule
 * that enables the submit button, and the component state that one
 * generation cycle updates. The server is a parameter: a function from the
 * two submitted fields to what `fetch` delivers.
 */
module HookPage {
  import opened JsString
  import HookRoute

  /** `text.substring(text.indexOf(':') + 1).trim()`: what the Copy button writes to the clipboard. */
  function CopyText(text: string): (copied: string)
    ensures IsTrimmed(copied)
    ensures |copied| <= |text|
  {
    Trim(text[IndexOf(text, ':') + 1..])
  }

  /** With a first colon at `i`, the copy is the trimmed text after it. */
  lemma CopyAfterFirstColon(text: string, i: nat)
    requires i < |text| && text[i] == ':' && ':' !in text[..i]
    ensures CopyText(text) == Trim(text[i + 1..])
  {
    IndexOfAt(text, ':', i);
  }

  /** Without a colon, `indexOf` gives -1 and the copy is the whole text, trimmed. */
  lemma CopyWithoutColon(text: string)
    requires ':' !in text
    ensures CopyText(text) == Trim(text)
  {
    assert text[0..] == text;
  }

  /** The copy is one contiguous piece of the text. */
  lemma CopyIsSlice(text: string)
    ensures exists i, j :: 0 <= i <= j <= |text| && CopyText(text) == text[i..j]
  {
    var start := IndexOf(text, ':') + 1;
    var rest := text[start..];
    var i, j := TrimSlice(rest);
    assert CopyText(text) == rest[i..j];
    SliceOfSuffix(text, start, i, j);
    assert 0 <= start + i <= start + j <= |text| && CopyText(text) == text[start + i..start + j];
  }

  // The suffix is written `gap + body + []` to match TrimUnique's split into
  // white space, a trimmed string and white space, here with no trailing white space.
  lemma LabelParts(angle: string, gap: string, body: string)
    ensures var text := angle + ":" + gap + body;
      |angle| < |text| && text[|angle|] == ':' && text[..|angle|] == angle
      && text[|angle| + 1..] == gap + body + []
  {
    var text := angle + ":" + gap + body;
    assert text[|angle| + 1..] == gap + body;
  }

  /** A hook shaped as the prompt asks, `(Angle): text`, copies as the text alone. */
  lemma CopyStripsLabel(angle: string, gap: string, body: string)
    requires ':' !in angle && AllWhitespace(gap) && IsTrimmed(body)
    ensures CopyText(angle + ":" + gap + body) == body
  {
    var text := angle + ":" + gap + body;
    LabelParts(angle, gap, body);
    CopyAfterFirstColon(text, |angle|);
    TrimUnique(gap + body + [], gap, body, []);
  }

  lemma CopyLabelledHook()
    ensures CopyText("(Curiosity)" + ":" + " " + "Did you know this?") == "Did you know this?"
  {
    CopyStripsLabel("(Curiosity)", " ", "Did you know this?");
  }

  /**
   * Only the first colon is consumed, so copying a copy can cut again: a
   * hook whose text itself has a colon is not a fixed point of CopyText.
   */
  lemma CopyNotIdempotent(angle: string, first: string, second: string)
    requires ':' !in angle && ':' !in first
    requires first != [] && !IsWhitespace(first[0]) && second != [] && IsTrimmed(second)
    ensures CopyText(angle + ":" + " " + (first + ":" + " " + second)) == first + ":" + " " + second
    ensures CopyText(first + ":" + " " + second) == second
  {
    var body := first + ":" + " " + second;
    assert body[0] == first[0];
    assert body[|body| - 1] == second[|second| - 1];
    CopyStripsLabel(angle, " ", body);
    CopyStripsLabel(first, " ", second);
  }

  /**
   * `disabled={isLoading || !productDescription || !targetAudience}`, negated:
   * the button is enabled exactly when no request is running and the route
   * would accept both fields.
   */
  function SubmitEnabled(isLoading: bool, productDescription: string, targetAudience: string): (enabled: bool)
    ensures enabled <==> !isLoading && HookRoute.Truthy(HookRoute.Str(productDescription))
                         && HookRoute.Truthy(HookRoute.Str(targetAudience))
  {
    !(isLoading || productDescription == "" || targetAudience == "")
  }

  /** An enabled button only sends requests that pass the route's validation. */
  lemma EnabledSubmitIsValid(isLoading: bool, productDescription: string, targetAudience: string,
                             t: HookRoute.Template, provider: string -> HookRoute.ProviderOutcome)
    requires SubmitEnabled(isLoading, productDescription, targetAudience)
    ensures !isLoading
    ensures HookRoute.Handle(t, HookRoute.Str(productDescription), HookRoute.Str(targetAudience), provider).prompts
            == [HookRoute.Fill(t, productDescription, targetAudience)]
    ensures HookRoute.Handle(t, HookRoute.Str(productDescription), HookRoute.Str(targetAudience), provider).response.status != 400
  {
  }

  /** What awaiting `fetch` yields: a response (its status and the `hooks` of its JSON body), or a thrown error. */
  datatype ServerReply = Delivered(status: int, hooks: seq<string>) | Thrown(message: string)

  /** `response.ok`: of the statuses the route sends, only 200 is OK. */
  function IsOk(status: int): (ok: bool)
    ensures status in {200, 400, 500} ==> (ok <==> status == 200)
  {
    200 <= status <= 299
  }

  const GenericFailure: string := "Something went wrong. Please try again."

  /** How a response of the route reaches the page. */
  function Deliver(r: HookRoute.Response): (reply: ServerReply)
    ensures reply.Delivered? && reply.status == r.status
    ensures r.body.HooksJson? ==> reply.hooks == r.body.hooks
  {
    Delivered(r.status, if r.body.HooksJson? then r.body.hooks else [])
  }

  /**
   * The page reads the route's answers correctly: `response.ok` holds
   * exactly for the answers that carry hooks, so the 400 and 500 answers
   * both take the non-OK path.
   */
  lemma RouteAnswersReadByPage(t: HookRoute.Template, productDescription: HookRoute.JsonField,
                               targetAudience: HookRoute.JsonField,
                               provider: string -> HookRoute.ProviderOutcome)
    ensures var r := HookRoute.Handle(t, productDescription, targetAudience, provider).response;
      IsOk(Deliver(r).status) <==> r.body.HooksJson?
  {
  }

  /** The state of `HomePage`. */
  class HomePage {
    var productDescription: string
    var targetAudience: string
    var hooks: seq<string>
    var isLoading: bool
    var error: string

    /**
     * While loading, no error and no hooks are shown; after a cycle, an
     * error and a list of hooks are never shown together.
     */
    ghost predicate Valid()
      reads this
    {
      (isLoading ==> error == "" && hooks == []) && (error != "" ==> hooks == [])
    }

    constructor ()
      ensures Valid()
      ensures productDescription == "" && targetAudience == ""
      ensures hooks == [] && !isLoading && error == ""
    {
      productDescription := "";
      targetAudience := "";
      hooks := [];
      isLoading := false;
      error := "";
    }

    /** The first textarea's `onChange`. */
    method SetProductDescription(value: string)
      requires Valid()
      modifies this`productDescription
      ensures Valid() && productDescription == value
    {
      productDescription := value;
    }

    /** The second textarea's `onChange`. */
    method SetTargetAudience(value: string)
      requires Valid()
      modifies this`targetAudience
      ensures Valid() && targetAudience == value
    {
      targetAudience := value;
    }

    /**
     * The start of `generateHooks`: reset, then the request is sent with the
     * two fields as they are now. The button is disabled until the cycle ends.
     */
    method StartGeneration() returns (sentDescription: string, sentAudience: string)
      modifies this`isLoading, this`error, this`hooks
      ensures Valid() && isLoading && error == "" && hooks == []
      ensures !SubmitEnabled(isLoading, productDescription, targetAudience)
      ensures sentDescription == productDescription && sentAudience == targetAudience
    {
      isLoading := true;
      error := "";
      hooks := [];
      sentDescription, sentAudience := productDescription, targetAudience;
    }

    /**
     * The end of `generateHooks`: an OK response replaces the hooks, a
     * non-OK one sets the generic message, a thrown error sets its own
     * message; in every case loading ends.
     */
    method FinishGeneration(reply: ServerReply)
      requires Valid() && isLoading
      modifies this`isLoading, this`error, this`hooks
      ensures Valid() && !isLoading
      ensures reply.Delivered? && IsOk(reply.status) ==> hooks == reply.hooks && error == ""
      ensures reply.Delivered? && !IsOk(reply.status) ==> hooks == [] && error == GenericFailure
      ensures reply.Thrown? ==> hooks == [] && error == reply.message
    {
      match reply {
        case Delivered(status, received) =>
          if IsOk(status) {
            hooks := received;
          } else {
            error := GenericFailure;
          }
        case Thrown(message) =>
          error := message;
      }
      isLoading := false;
    }

    /** `generateHooks`: one whole cycle against `server`. */
    method GenerateHooks(server: (string, string) -> ServerReply)
      modifies this`isLoading, this`error, this`hooks
      ensures Valid() && !isLoading
      ensures productDescription == old(productDescription) && targetAudience == old(targetAudience)
      ensures var reply := server(old(productDescription), old(targetAudience));
        && (reply.Delivered? && IsOk(reply.status) ==> hooks == reply.hooks && error == "")
        && (reply.Delivered? && !IsOk(reply.status) ==> hooks == [] && error == GenericFailure)
        && (reply.Thrown? ==> hooks == [] && error == reply.message)
    {
      var sentDescription, sentAudience := StartGeneration();
      FinishGeneration(server(sentDescription, sentAudience));
    }
  }

  /**
   * The sourdough session end to end: both fields typed, the button
   * enabled, the route answering with a three-hook reply that has an empty
   * line; the page ends showing the three hooks, in order, and no error.
   */
  method SourdoughSession(t: HookRoute.Template, provider: string -> HookRoute.ProviderOutcome,
                          a: string, b: string, d: string)
    returns (shown: seq<string>)
    requires HookRoute.SingleHookLine(a) && HookRoute.SingleHookLine(b) && HookRoute.SingleHookLine(d)
    requires provider(HookRoute.Fill(t, "An online sourdough baking course", "busy moms"))
             == HookRoute.Generated(Join([a, b, "", d], '\n'))
    ensures shown == [a, b, d]
  {
    var page := new HomePage();
    page.SetProductDescription("An online sourdough baking course");
    page.SetTargetAudience("busy moms");
    assert SubmitEnabled(page.isLoading, page.productDescription, page.targetAudience);
    HookRoute.SourdoughReply(t, provider, a, b, d);
    page.GenerateHooks((pd, ta) => Deliver(HookRoute.Handle(t, HookRoute.Str(pd), HookRoute.Str(ta), provider).response));
    assert page.error == "";
    shown := page.hooks;
  }
}
