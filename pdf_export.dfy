/**
  The page layout of the exported report. The captured page image is scaled to
  the paper width and placed once per page, each time one page height further
  up, until all of it has been shown; every page gets the same header, derived
  from the file name, and a "Page k of n" footer. The capture and drawing
  libraries are left out: placing the image and writing the header and footer
  on a page become one `PagePlacement` appended to the result.
*/
module PdfExport {
  import opened Text
  import opened Types
  import opened App

  /*
    The header: the file name with every "ROI_Report_" and ".pdf" removed
    and underscores turned back into spaces.
  */

  /**
    `s.replace(/ROI_Report_|\.pdf/g, '')`: scanning left to right, an occurrence of
    either marker (the first alternative tried first) is dropped and the scan
    resumes after it; any other character is kept.
  */
  function StripMarkers(s: string): (r: string)
    ensures |r| <= |s|
    ensures forall k :: 0 <= k < |r| ==> r[k] in s
    decreases |s|
  {
    if StartsWith(s, ReportPrefix) then StripMarkers(s[|ReportPrefix|..])
    else if StartsWith(s, ReportSuffix) then StripMarkers(s[|ReportSuffix|..])
    else if s == [] then []
    else
      var rest := StripMarkers(s[1..]);
      assert forall k :: 0 <= k < |rest| ==> rest[k] in s by {
        forall k | 0 <= k < |rest| ensures rest[k] in s {
          assert rest[k] in s[1..];
        }
      }
      [s[0]] + rest
  }

  /** Neither marker can start inside `s`: it has no 'R' and no '.'. */
  predicate MarkerFree(s: string) {
    forall k :: 0 <= k < |s| ==> s[k] != 'R' && s[k] != '.'
  }

  /** A marker-free text followed by ".pdf" comes out as the text itself. */
  lemma {:induction false} StripMarkerFreeText(s: string)
    requires MarkerFree(s)
    ensures StripMarkers(s + ReportSuffix) == s
    decreases |s|
  {
    if s == [] {
      assert StartsWith(ReportSuffix, ReportSuffix);
      assert ReportSuffix[|ReportSuffix|..] == [];
    } else {
      var t := s + ReportSuffix;
      assert t[0] == s[0];
      assert !StartsWith(t, ReportPrefix) by { assert ReportPrefix[0] == 'R'; }
      assert !StartsWith(t, ReportSuffix) by { assert ReportSuffix[0] == '.'; }
      assert t[1..] == s[1..] + ReportSuffix;
      StripMarkerFreeText(s[1..]);
    }
  }

  /** `.replace(/_/g, ' ')`. */
  function UnderscoresToSpaces(s: string): (r: string)
    ensures |r| == |s|
    ensures forall k :: 0 <= k < |s| ==> r[k] == if s[k] == '_' then ' ' else s[k]
  {
    seq(|s|, k requires 0 <= k < |s| => if s[k] == '_' then ' ' else s[k])
  }

  function IndustryName(fileName: string): string {
    UnderscoresToSpaces(StripMarkers(fileName))
  }

  const HeaderPrefix: string := "Automation ROI Report: "

  function HeaderText(fileName: string): (r: string)
    ensures StartsWith(r, HeaderPrefix) && r[|HeaderPrefix|..] == IndustryName(fileName)
  {
    var r := HeaderPrefix + IndustryName(fileName);
    assert r[..|HeaderPrefix|] == HeaderPrefix;
    r
  }

  /** What a label turns into on its way through the file name and back. */
  function RecoveredLabel(s: string): (r: string)
    ensures |r| == |s|
    ensures forall k :: 0 <= k < |s| ==>
      r[k] == if IsFileNameSeparator(s[k]) || s[k] == '_' then ' ' else s[k]
  {
    seq(|s|, k requires 0 <= k < |s| => if IsFileNameSeparator(s[k]) || s[k] == '_' then ' ' else s[k])
  }

  /** Replacing separators by '_' adds neither an 'R' nor a '.'. */
  lemma ReplaceSeparatorsMarkerFree(s: string)
    requires MarkerFree(s)
    ensures MarkerFree(ReplaceSeparators(s))
  {
  }

  /** A marker-free text survives the trip through a report file name up to its separators. */
  lemma RecoveredFromFileName(s: string)
    requires MarkerFree(s)
    ensures IndustryName(ReportPrefix + ReplaceSeparators(s) + ReportSuffix) == RecoveredLabel(s)
  {
    var middle := ReplaceSeparators(s);
    var name := ReportPrefix + middle + ReportSuffix;
    assert StartsWith(name, ReportPrefix) by {
      assert name[..|ReportPrefix|] == ReportPrefix;
    }
    assert name[|ReportPrefix|..] == middle + ReportSuffix;
    ReplaceSeparatorsMarkerFree(s);
    StripMarkerFreeText(middle);
  }

  lemma LabelMarkerFree(i: Industry)
    ensures MarkerFree(Label(i))
  {
    match i
    case Construction => assert MarkerFree("Construction & Subcontracting");
    case Logistics => assert MarkerFree("Logistics & Freight");
    case FieldServices => assert MarkerFree("Field Services");
    case Dental => assert MarkerFree("Dental Practices");
    case Accounting => assert MarkerFree("Accounting Firms");
  }

  /**
    The header names the industry of the file: every whitespace character,
    '&' and '_' of its label comes back as a space, everything else unchanged.
  */
  lemma IndustryNameOfFileName(i: Industry)
    ensures IndustryName(FileName(i)) == RecoveredLabel(Label(i))
  {
    LabelMarkerFree(i);
    RecoveredFromFileName(Label(i));
  }

  /** Only ASCII letters and spaces. */
  predicate LettersAndSpaces(s: string) {
    forall k :: 0 <= k < |s| ==> s[k] == ' ' || 'A' <= s[k] <= 'Z' || 'a' <= s[k] <= 'z'
  }

  /** Such a text is not changed on the way back. */
  lemma LettersAndSpacesRecovered(s: string)
    requires LettersAndSpaces(s)
    ensures RecoveredLabel(s) == s
  {
  }

  lemma RecoveredConcat(a: string, b: string, c: string)
    ensures RecoveredLabel(a + b + c) == RecoveredLabel(a) + RecoveredLabel(b) + RecoveredLabel(c)
  {
  }

  lemma PlainLabelLetters(i: Industry)
    requires i == FieldServices || i == Dental || i == Accounting
    ensures LettersAndSpaces(Label(i))
  {
    match i
    case FieldServices => assert LettersAndSpaces("Field Services");
    case Dental => assert LettersAndSpaces("Dental Practices");
    case Accounting => assert LettersAndSpaces("Accounting Firms");
  }

  /** The three labels without '&' are recovered exactly. */
  lemma PlainLabelsRecovered(i: Industry)
    requires i == FieldServices || i == Dental || i == Accounting
    ensures IndustryName(FileName(i)) == Label(i)
  {
    IndustryNameOfFileName(i);
    PlainLabelLetters(i);
    LettersAndSpacesRecovered(Label(i));
  }

  /** `a & b` comes back as `a`, three spaces and `b`. */
  lemma AmpersandWidened(a: string, b: string)
    requires LettersAndSpaces(a) && LettersAndSpaces(b)
    ensures RecoveredLabel(a + " & " + b) == a + "   " + b
  {
    RecoveredConcat(a, " & ", b);
    LettersAndSpacesRecovered(a);
    LettersAndSpacesRecovered(b);
    assert RecoveredLabel(" & ") == "   ";
  }

  lemma AmpersandLabelParts()
    ensures Label(Logistics) == "Logistics" + " & " + "Freight"
    ensures Label(Construction) == "Construction" + " & " + "Subcontracting"
  {
  }

  lemma AmpersandWordLetters()
    ensures LettersAndSpaces("Logistics") && LettersAndSpaces("Freight")
    ensures LettersAndSpaces("Construction") && LettersAndSpaces("Subcontracting")
  {
  }

  lemma WidenedSpelling()
    ensures "Logistics" + "   " + "Freight" == "Logistics   Freight"
    ensures "Construction" + "   " + "Subcontracting" == "Construction   Subcontracting"
  {
  }

  /** The labels with " & " come back with three spaces in its place. */
  lemma AmpersandLabelsWidened()
    ensures IndustryName(FileName(Logistics)) == "Logistics   Freight"
    ensures IndustryName(FileName(Construction)) == "Construction   Subcontracting"
  {
    AmpersandLabelParts();
    AmpersandWordLetters();
    AmpersandLabelWidened(Logistics, "Logistics", "Freight");
    AmpersandLabelWidened(Construction, "Construction", "Subcontracting");
    WidenedSpelling();
  }

  lemma AmpersandLabelWidened(i: Industry, a: string, b: string)
    requires Label(i) == a + " & " + b
    requires LettersAndSpaces(a) && LettersAndSpaces(b)
    ensures IndustryName(FileName(i)) == a + "   " + b
  {
    IndustryNameOfFileName(i);
    AmpersandWidened(a, b);
  }

  /* The page arithmetic. */

  /** `Math.ceil`: the least integer not below `x`. */
  function Ceil(x: real): (n: int)
    ensures x <= n as real < x + 1.0
  {
    -((-x).Floor)
  }

  /** The height of the image once scaled to the paper width. */
  function ImageHeight(pdfWidth: real, canvasWidth: nat, canvasHeight: nat): (h: real)
    requires pdfWidth > 0.0 && canvasWidth > 0
    ensures h == canvasHeight as real * pdfWidth / canvasWidth as real
    ensures h >= 0.0
  {
    var ratio := canvasWidth as real / pdfWidth;
    canvasHeight as real / ratio
  }

  /** The `totalPages` printed in every footer. */
  function TotalPages(imgHeight: real, pdfHeight: real): (n: nat)
    requires imgHeight >= 0.0 && pdfHeight > 0.0
    ensures n as real * pdfHeight >= imgHeight
    ensures n == 0 || (n - 1) as real * pdfHeight < imgHeight
  {
    var q := imgHeight / pdfHeight;
    var n := Ceil(q);
    AtLeastAPage(n as real, imgHeight, pdfHeight);
    AtLeastAPage(n as real - 1.0, imgHeight, pdfHeight);
    n
  }

  /** `m` pages cover the image exactly when `m` is at least its height in pages. */
  lemma AtLeastAPage(m: real, imgHeight: real, pdfHeight: real)
    requires pdfHeight > 0.0
    ensures m * pdfHeight >= imgHeight <==> m >= imgHeight / pdfHeight
  {
    var q := imgHeight / pdfHeight;
    assert q * pdfHeight == imgHeight;
    if m >= q {
      assert m * pdfHeight >= q * pdfHeight;
    } else {
      assert m * pdfHeight < q * pdfHeight;
    }
  }

  /** The number of pages placed: the first page is always placed. */
  function PageCount(imgHeight: real, pdfHeight: real): nat
    requires imgHeight >= 0.0 && pdfHeight > 0.0
  {
    var total := TotalPages(imgHeight, pdfHeight);
    if total >= 1 then total else 1
  }

  /** Whenever there is any image, the footers' page total is the number of pages placed. */
  lemma PageCountIsTotalPages(imgHeight: real, pdfHeight: real)
    requires imgHeight > 0.0 && pdfHeight > 0.0
    ensures PageCount(imgHeight, pdfHeight) == TotalPages(imgHeight, pdfHeight)
  {
  }

  /** The least `n >= 1` pages that cover the image is the page count. */
  lemma CoveringCount(n: nat, imgHeight: real, pdfHeight: real)
    requires imgHeight >= 0.0 && pdfHeight > 0.0
    requires n >= 1 && n as real * pdfHeight >= imgHeight
    requires n == 1 || (n - 1) as real * pdfHeight < imgHeight
    ensures n == PageCount(imgHeight, pdfHeight)
  {
    var q := imgHeight / pdfHeight;
    AtLeastAPage(n as real, imgHeight, pdfHeight);
    AtLeastAPage((n as int - 1) as real, imgHeight, pdfHeight);
    assert n as real >= q && (n == 1 || (n as int - 1) as real < q);
    assert TotalPages(imgHeight, pdfHeight) == Ceil(q);
  }

  /** `Page ${currentPage} of ${totalPages}`. */
  function FooterText(page: nat, total: nat): string {
    "Page " + NatToString(page) + " of " + NatToString(total)
  }

  /** No two pages of one report carry the same footer. */
  lemma FootersDistinct(j: nat, k: nat, total: nat)
    requires j != k
    ensures FooterText(j, total) != FooterText(k, total)
  {
    var a, b := NatToString(j), NatToString(k);
    var s, t := FooterText(j, total), FooterText(k, total);
    assert s == "Page " + a + (" of " + NatToString(total));
    assert t == "Page " + b + (" of " + NatToString(total));
    assert s[5..5 + |a|] == a && t[5..5 + |b|] == b;
    if |a| == |b| && s == t {
      NatToStringInjective(j, k);
    }
  }

  /**
    One `addImage` together with its `addHeaderFooter`: where the image goes,
    the header text, and the two numbers of its footer.
  */
  datatype PagePlacement = PagePlacement(y: real, width: real, height: real, header: string, page: nat, totalPages: nat)

  /** The footer line drawn on a page. */
  function Footer(p: PagePlacement): string {
    FooterText(p.page, p.totalPages)
  }

  /** Page `k + 1` shows the image `k` page heights higher up. */
  function Placement(k: nat, pdfWidth: real, pdfHeight: real, imgHeight: real, header: string, total: nat): PagePlacement {
    PagePlacement(-(k as real) * pdfHeight, pdfWidth, imgHeight, header, k + 1, total)
  }

  /** One more pass of the loop: it only happens while fewer than `totalPages` pages are placed. */
  lemma NextPageStep(page: nat, totalPages: nat, imgHeight: real, pdfHeight: real)
    requires page >= 1 && pdfHeight > 0.0
    requires totalPages as real * pdfHeight >= imgHeight
    requires imgHeight - page as real * pdfHeight > 0.0
    ensures page < totalPages
    ensures page as real * pdfHeight < imgHeight
    ensures imgHeight - page as real * pdfHeight - pdfHeight == imgHeight - (page + 1) as real * pdfHeight
    ensures -((page - 1) as real) * pdfHeight - pdfHeight == -(page as real) * pdfHeight
  {
  }

  /**
    The export loop: the image is placed at 0, then one page height higher on
    each further page, for as long as some of it is still below the pages placed.
  */
  method Paginate(pdfWidth: real, pdfHeight: real, canvasWidth: nat, canvasHeight: nat, fileName: string)
    returns (pages: seq<PagePlacement>)
    requires pdfWidth > 0.0 && pdfHeight > 0.0 && canvasWidth > 0
    ensures var imgHeight := ImageHeight(pdfWidth, canvasWidth, canvasHeight);
      && |pages| >= 1
      && |pages| as real * pdfHeight >= imgHeight
      && (|pages| == 1 || (|pages| - 1) as real * pdfHeight < imgHeight)
      && |pages| == PageCount(imgHeight, pdfHeight)
    ensures var imgHeight := ImageHeight(pdfWidth, canvasWidth, canvasHeight);
      forall k :: 0 <= k < |pages| ==>
        pages[k] == Placement(k, pdfWidth, pdfHeight, imgHeight, HeaderText(fileName), TotalPages(imgHeight, pdfHeight))
  {
    var ratio := canvasWidth as real / pdfWidth;
    var imgHeight := canvasHeight as real / ratio;

    var heightLeft := imgHeight;
    var position := 0.0;
    var page: nat := 1;

    var totalPages := TotalPages(imgHeight, pdfHeight);
    var header := HeaderText(fileName);

    pages := [PagePlacement(position, pdfWidth, imgHeight, header, page, totalPages)];
    heightLeft := heightLeft - pdfHeight;

    while heightLeft > 0.0
      invariant page >= 1 && |pages| == page
      invariant heightLeft == imgHeight - page as real * pdfHeight
      invariant position == -((page - 1) as real) * pdfHeight
      invariant page == 1 || (page - 1) as real * pdfHeight < imgHeight
      invariant forall k :: 0 <= k < page ==> pages[k] == Placement(k, pdfWidth, pdfHeight, imgHeight, header, totalPages)
      decreases totalPages - page
    {
      NextPageStep(page, totalPages, imgHeight, pdfHeight);
      position := position - pdfHeight;
      page := page + 1;
      pages := pages + [PagePlacement(position, pdfWidth, imgHeight, header, page, totalPages)];
      heightLeft := heightLeft - pdfHeight;
    }
    CoveringCount(page, imgHeight, pdfHeight);
  }

  /** Every page of a report has its own footer. */
  lemma PaginateFootersDistinct(pages: seq<PagePlacement>, pdfWidth: real, pdfHeight: real, imgHeight: real, header: string, total: nat)
    requires forall k :: 0 <= k < |pages| ==> pages[k] == Placement(k, pdfWidth, pdfHeight, imgHeight, header, total)
    ensures forall j, k :: 0 <= j < k < |pages| ==> Footer(pages[j]) != Footer(pages[k])
  {
    forall j, k | 0 <= j < k < |pages|
      ensures Footer(pages[j]) != Footer(pages[k])
    {
      FootersDistinct(j + 1, k + 1, total);
    }
  }
}
