/**
  The AI insights panel: how generated text is broken into paragraphs,
  bullet items and bold runs, the button's caption and enabled state, and
  the panel's state transitions when a generation is requested. The calls
  to the generative service are not part of this model: each generation's
  outcome arrives as a parameter.
*/
module Insights {
  import opened Wrappers
  import opened Text

  /* Rendering the generated text. */

  /** `lines.filter(p => p.trim() !== '')`. */
  function FilterNonBlank(lines: seq<string>): (r: seq<string>)
    ensures |r| <= |lines|
  {
    if lines == [] then [] else Kept(lines[0]) + FilterNonBlank(lines[1..])
  }

  /** The filter keeps exactly the non-blank lines. */
  lemma {:induction false} FilterNonBlankMembers(lines: seq<string>)
    ensures forall p :: p in FilterNonBlank(lines) <==> p in lines && Trim(p) != ""
    decreases |lines|
  {
    if lines != [] {
      FilterNonBlankMembers(lines[1..]);
      assert lines == [lines[0]] + lines[1..];
    }
  }

  /** A single line survives the filter when it is not blank. */
  function Kept(line: string): seq<string> {
    if Trim(line) != "" then [line] else []
  }

  /** Filtering keeps the order: the lines of a longer text are filtered piece by piece. */
  lemma {:induction false} FilterNonBlankAppend(a: seq<string>, b: seq<string>)
    ensures FilterNonBlank(a + b) == FilterNonBlank(a) + FilterNonBlank(b)
    decreases |a|
  {
    if a == [] {
      assert a + b == b;
    } else {
      var ab := a + b;
      assert ab[0] == a[0] && ab[1..] == a[1..] + b;
      var head := Kept(a[0]);
      var restA, restB := FilterNonBlank(a[1..]), FilterNonBlank(b);
      FilterNonBlankAppend(a[1..], b);
      calc {
        FilterNonBlank(ab);
        head + FilterNonBlank(a[1..] + b);
        head + (restA + restB);
        (head + restA) + restB;
        FilterNonBlank(a) + restB;
      }
    }
  }

  /** The paragraphs shown: the non-blank lines of the content, in order. */
  function Paragraphs(content: string): seq<string> {
    FilterNonBlank(SplitOn(content, "\n"))
  }

  /** A text made of lines joined by newlines is shown as exactly its non-blank lines. */
  lemma ParagraphsOfLines(lines: seq<string>)
    requires |lines| >= 1
    requires forall p :: p in lines ==> '\n' !in p
    ensures Paragraphs(JoinWith(lines, "\n")) == FilterNonBlank(lines)
  {
    SplitJoinChar(lines, '\n');
  }

  /** A run of text, bold or not. */
  datatype Segment = Segment(text: string, bold: bool)

  /** `text.split('**')`, with every odd-numbered part bold. */
  function Segments(text: string): (r: seq<Segment>)
    ensures |r| == |SplitOn(text, "**")| >= 1
    ensures forall k :: 0 <= k < |r| ==> (r[k].bold <==> k % 2 == 1)
    ensures forall k :: 0 <= k < |r| ==> r[k].text == SplitOn(text, "**")[k]
  {
    var parts := SplitOn(text, "**");
    seq(|parts|, k requires 0 <= k < |parts| => Segment(parts[k], k % 2 == 1))
  }

  function SegmentTexts(r: seq<Segment>): (texts: seq<string>)
    ensures |texts| == |r| && forall k :: 0 <= k < |r| ==> texts[k] == r[k].text
  {
    seq(|r|, k requires 0 <= k < |r| => r[k].text)
  }

  /**
    The bold markers are consumed and nothing else: no run contains "**", and
    putting the markers back between the runs gives the text back.
  */
  lemma SegmentsRoundTrip(text: string)
    ensures forall k :: 0 <= k < |Segments(text)| ==> !Contains(Segments(text)[k].text, "**")
    ensures JoinWith(SegmentTexts(Segments(text)), "**") == text
  {
    var parts := SplitOn(text, "**");
    SplitOnPartsSepFree(text, "**");
    JoinSplitOn(text, "**");
    assert SegmentTexts(Segments(text)) == parts;
  }

  /** A paragraph is shown either as a bullet item or as a plain paragraph. */
  datatype Block = BulletItem(segments: seq<Segment>) | Paragraph(segments: seq<Segment>)

  const BulletMarker: string := "* "

  function RenderBlock(paragraph: string): (b: Block)
    ensures b.BulletItem? <==> StartsWith(Trim(paragraph), BulletMarker)
    ensures b.BulletItem? ==> b.segments == Segments(Trim(paragraph)[|BulletMarker|..])
    ensures b.Paragraph? ==> b.segments == Segments(paragraph)
  {
    var trimmed := Trim(paragraph);
    if StartsWith(trimmed, BulletMarker) then BulletItem(Segments(trimmed[|BulletMarker|..]))
    else Paragraph(Segments(paragraph))
  }

  /**
    What a block shows is what its paragraph says: a bullet item is the trimmed
    line after its "* ", a plain paragraph the whole line, each without the bold markers.
  */
  lemma RenderBlockRecovers(paragraph: string)
    ensures var b := RenderBlock(paragraph);
      b.BulletItem? ==> BulletMarker + JoinWith(SegmentTexts(b.segments), "**") == Trim(paragraph)
    ensures var b := RenderBlock(paragraph);
      b.Paragraph? ==> JoinWith(SegmentTexts(b.segments), "**") == paragraph
  {
    var trimmed := Trim(paragraph);
    if StartsWith(trimmed, BulletMarker) {
      SegmentsRoundTrip(trimmed[|BulletMarker|..]);
      assert trimmed == trimmed[..|BulletMarker|] + trimmed[|BulletMarker|..];
    } else {
      SegmentsRoundTrip(paragraph);
    }
  }

  /** The rendered content: one block per non-blank line. */
  function Render(content: string): (blocks: seq<Block>)
    ensures |blocks| == |Paragraphs(content)|
    ensures forall k :: 0 <= k < |blocks| ==> blocks[k] == RenderBlock(Paragraphs(content)[k])
  {
    var paragraphs := Paragraphs(content);
    seq(|paragraphs|, k requires 0 <= k < |paragraphs| => RenderBlock(paragraphs[k]))
  }

  /** No shown paragraph is blank. */
  lemma RenderedParagraphsNonBlank(content: string, k: nat)
    requires k < |Paragraphs(content)|
    ensures Trim(Paragraphs(content)[k]) != ""
    ensures Paragraphs(content)[k] in SplitOn(content, "\n")
  {
    FilterNonBlankMembers(SplitOn(content, "\n"));
    assert Paragraphs(content)[k] in Paragraphs(content);
  }

  /* The tabs and their content. */

  datatype Tab = InsightsTab | EmailTab | VideoTab

  /** The tab's name as it appears in error messages. */
  function TabName(t: Tab): string {
    match t
    case InsightsTab => "insights"
    case EmailTab => "email"
    case VideoTab => "video"
  }

  /** The noun on the generate button. */
  function Noun(t: Tab): string {
    match t
    case InsightsTab => "Analysis"
    case EmailTab => "Email"
    case VideoTab => "Video"
  }

  /** The generated text, email and video address; empty until generated. */
  datatype Content = Content(insights: string, email: string, videoUrl: string)

  const EmptyContent: Content := Content("", "", "")

  function Slot(c: Content, t: Tab): string {
    match t
    case InsightsTab => c.insights
    case EmailTab => c.email
    case VideoTab => c.videoUrl
  }

  /** `setContent(c => ({ ...c, [slot]: value }))`. */
  function WithSlot(c: Content, t: Tab, value: string): (r: Content)
    ensures Slot(r, t) == value
    ensures forall u :: u != t ==> Slot(r, u) == Slot(c, u)
  {
    match t
    case InsightsTab => c.(insights := value)
    case EmailTab => c.(email := value)
    case VideoTab => c.(videoUrl := value)
  }

  /** A string is truthy when it is not empty. */
  predicate HasContentForTab(c: Content, t: Tab) {
    Slot(c, t) != ""
  }

  const RegenerateVerb: string := "Regenerate"
  const GenerateVerb: string := "Generate"

  function ButtonText(t: Tab, c: Content): string {
    (if HasContentForTab(c, t) then RegenerateVerb else GenerateVerb) + " " + Noun(t)
  }

  /** The button offers to regenerate exactly when the tab already has content, and always names the tab. */
  lemma ButtonTextRegenerates(t: Tab, c: Content)
    ensures StartsWith(ButtonText(t, c), RegenerateVerb) <==> Slot(c, t) != ""
    ensures StartsWith(ButtonText(t, c), GenerateVerb) <==> Slot(c, t) == ""
    ensures var r := ButtonText(t, c); |r| > |Noun(t)| && r[|r| - |Noun(t)|..] == Noun(t)
  {
    var r := ButtonText(t, c);
    if Slot(c, t) != "" {
      assert r[..|RegenerateVerb|] == RegenerateVerb;
      assert r[..|GenerateVerb|] != GenerateVerb by { assert r[0] == 'R'; }
    } else {
      assert r[..|GenerateVerb|] == GenerateVerb;
      assert !StartsWith(r, RegenerateVerb) by { assert r[0] == 'G'; }
    }
    assert r[|r| - |Noun(t)|..] == Noun(t);
  }

  /** The button cannot be pressed while loading, nor on the video tab without a key. */
  predicate ButtonDisabled(activeTab: Tab, isLoading: bool, apiKeySelected: bool) {
    isLoading || (activeTab == VideoTab && !apiKeySelected)
  }

  const GeneratingCaption: string := "Generating..."

  function ButtonCaption(activeTab: Tab, isLoading: bool, c: Content): (r: string)
    ensures isLoading ==> r == GeneratingCaption
    ensures !isLoading ==> r == ButtonText(activeTab, c)
  {
    if isLoading then GeneratingCaption else ButtonText(activeTab, c)
  }

  /* Generation. */

  /** What the generative service returned: a text, or an error with its message. */
  datatype Outcome = Generated(text: string) | Failed(message: string)

  const SelectKeyError: string := "Please select an API key to generate videos."
  const KeyNotFoundMarker: string := "Requested entity was not found"
  const KeyInvalidError: string := "API Key not found or invalid. Please select your API key again."

  function GenericError(t: Tab): string {
    "An error occurred while generating the " + TabName(t) + "."
  }

  /** The error shown after a failed generation. */
  function FailureError(t: Tab, message: string): (r: string)
    ensures Contains(message, KeyNotFoundMarker) ==> r == KeyInvalidError
    ensures !Contains(message, KeyNotFoundMarker) ==> r == GenericError(t)
  {
    if Contains(message, KeyNotFoundMarker) then KeyInvalidError else GenericError(t)
  }

  /** Generic failures on different tabs read differently; none reads like the key error. */
  lemma GenericErrorsDistinct(t: Tab, u: Tab)
    ensures GenericError(t) == GenericError(u) <==> t == u
    ensures GenericError(t) != KeyInvalidError && GenericError(t) != SelectKeyError
  {
    var prefix := "An error occurred while generating the ";
    var g := GenericError(t);
    var h := GenericError(u);
    assert g[|prefix|] == TabName(t)[0];
    assert h[|prefix|] == TabName(u)[0];
    assert |g| == |prefix| + |TabName(t)| + 1;
    assert |KeyInvalidError| == 63 && |SelectKeyError| == 44;
  }

  /** The state of the panel. */
  class Panel {
    var activeTab: Tab
    var isLoading: bool
    var error: Option<string>
    var content: Content
    var apiKeySelected: bool

    constructor ()
      ensures activeTab == InsightsTab && !isLoading && error == None
      ensures content == EmptyContent && !apiKeySelected
    {
      activeTab := InsightsTab;
      isLoading := false;
      error := None;
      content := EmptyContent;
      apiKeySelected := false;
    }

    predicate GenerateDisabled()
      reads this
    {
      ButtonDisabled(activeTab, isLoading, apiKeySelected)
    }

    function Caption(): string
      reads this
    {
      ButtonCaption(activeTab, isLoading, content)
    }

    /** A tab button: only the active tab changes. */
    method SelectTab(t: Tab)
      modifies this
      ensures activeTab == t
      ensures isLoading == old(isLoading) && error == old(error)
      ensures content == old(content) && apiKeySelected == old(apiKeySelected)
    {
      activeTab := t;
    }

    /**
      The effect run when the active tab changes: on the video tab the key
      status reported by the host, if the host reports one, is adopted.
    */
    method RefreshKeyStatus(reported: Option<bool>)
      modifies this
      ensures apiKeySelected == if old(activeTab) == VideoTab && reported.Some? then reported.value else old(apiKeySelected)
      ensures activeTab == old(activeTab) && isLoading == old(isLoading)
      ensures error == old(error) && content == old(content)
    {
      if activeTab == VideoTab && reported.Some? {
        apiKeySelected := reported.value;
      }
    }

    /** Selecting a key, when the host offers a key dialog, marks a key as selected. */
    method SelectApiKey(dialogAvailable: bool)
      modifies this
      ensures apiKeySelected == (old(apiKeySelected) || dialogAvailable)
      ensures activeTab == old(activeTab) && isLoading == old(isLoading)
      ensures error == old(error) && content == old(content)
    {
      if dialogAvailable {
        apiKeySelected := true;
      }
    }

    /**
      The synchronous start of a generation: loading begins and the error is
      cleared; on the video tab without a key it stops straight away with an
      error. `proceed` says whether the service is called.
    */
    method BeginGenerate(tab: Tab) returns (proceed: bool)
      modifies this
      ensures proceed <==> !(tab == VideoTab && !old(apiKeySelected))
      ensures proceed ==> isLoading && error == None
      ensures !proceed ==> !isLoading && error == Some(SelectKeyError)
      ensures activeTab == old(activeTab) && content == old(content) && apiKeySelected == old(apiKeySelected)
    {
      isLoading := true;
      error := None;
      if tab == VideoTab && !apiKeySelected {
        error := Some(SelectKeyError);
        isLoading := false;
        return false;
      }
      return true;
    }

    /**
      The completion of a generation: a text fills the tab's slot and leaves
      the rest alone; a failure sets an error and, when the service did not
      find the key, forgets the key. Loading ends either way.
    */
    method CompleteGenerate(tab: Tab, outcome: Outcome)
      modifies this
      ensures !isLoading && activeTab == old(activeTab)
      ensures outcome.Generated? ==>
        content == WithSlot(old(content), tab, outcome.text) && error == old(error)
        && apiKeySelected == old(apiKeySelected)
      ensures outcome.Failed? ==>
        content == old(content) && error == Some(FailureError(tab, outcome.message))
        && apiKeySelected == (old(apiKeySelected) && !Contains(outcome.message, KeyNotFoundMarker))
    {
      match outcome {
        case Generated(text) =>
          content := WithSlot(content, tab, text);
        case Failed(message) =>
          var errorMessage := GenericError(tab);
          if Contains(message, KeyNotFoundMarker) {
            errorMessage := KeyInvalidError;
            apiKeySelected := false;
          }
          error := Some(errorMessage);
      }
      isLoading := false;
    }

    /** `handleGenerate(tab)` with the service's eventual outcome. */
    method HandleGenerate(tab: Tab, outcome: Outcome)
      modifies this
      ensures !isLoading && activeTab == old(activeTab)
      ensures tab == VideoTab && !old(apiKeySelected) ==>
        error == Some(SelectKeyError) && content == old(content) && !apiKeySelected
      ensures !(tab == VideoTab && !old(apiKeySelected)) && outcome.Generated? ==>
        error == None && content == WithSlot(old(content), tab, outcome.text)
        && apiKeySelected == old(apiKeySelected)
      ensures !(tab == VideoTab && !old(apiKeySelected)) && outcome.Failed? ==>
        error == Some(FailureError(tab, outcome.message)) && content == old(content)
        && apiKeySelected == (old(apiKeySelected) && !Contains(outcome.message, KeyNotFoundMarker))
      ensures GenerateDisabled() <==> activeTab == VideoTab && !apiKeySelected
    {
      var proceed := BeginGenerate(tab);
      if proceed {
        CompleteGenerate(tab, outcome);
      }
    }
  }
}
