/**
 * How the merge route builds one PDF from the uploaded files, in upload order: a PDF
 * gives all its pages, a JPEG or PNG gives one page of its own pixel size with the image
 * drawn over the whole page, and any other MIME type gives nothing. pdf-lib's documents
 * are abstract here: a PDF is its list of pages, an image its width and height.
 */
module MergeAssembly {

  /** A page of an uploaded PDF, copied as it is. */
  datatype SourcePage = SourcePage(width: nat, height: nat, content: nat)

  datatype ImageFormat = Png | Jpeg

  /** Where an embedded image is drawn on its page. */
  datatype Placement = Placement(x: int, y: int, width: nat, height: nat)

  datatype Page =
    | Copied(source: SourcePage)
    | ImagePage(width: nat, height: nat, format: ImageFormat, drawn: Placement)

  /** What pdf-lib finds when it reads an uploaded file. */
  datatype Body = Document(pages: seq<SourcePage>) | Raster(width: nat, height: nat) | Unreadable

  /** One uploaded file as the merge loop sees it: its declared MIME type and its content. */
  datatype MergeInput = MergeInput(mimetype: string, body: Body)

  /** The pages so far, or the MIME type of the first file pdf-lib could not read. */
  datatype Assembled = Pages(pages: seq<Page>) | Failed(mimetype: string)

  predicate IsPdf(mimetype: string)
  {
    mimetype == "application/pdf"
  }

  predicate IsImage(mimetype: string)
  {
    mimetype == "image/jpeg" || mimetype == "image/jpg" || mimetype == "image/png"
  }

  function PageWidth(p: Page): nat
  {
    match p
    case Copied(s) => s.width
    case ImagePage(w, _, _, _) => w
  }

  function PageHeight(p: Page): nat
  {
    match p
    case Copied(s) => s.height
    case ImagePage(_, h, _, _) => h
  }

  /**
   * The pages one file adds. `embedPng` is chosen when the MIME type contains "png",
   * which among the three image types is "image/png" alone.
   */
  function Contribution(input: MergeInput): (r: Assembled)
    ensures IsPdf(input.mimetype) ==> (r.Pages? <==> input.body.Document?)
    ensures IsPdf(input.mimetype) && r.Pages? ==> r.pages == seq(|input.body.pages|, k requires 0 <= k < |input.body.pages| => Copied(input.body.pages[k]))
    ensures IsImage(input.mimetype) ==> (r.Pages? <==> input.body.Raster?)
    ensures IsImage(input.mimetype) && r.Pages? ==>
      |r.pages| == 1 && r.pages[0].ImagePage? &&
      PageWidth(r.pages[0]) == input.body.width && PageHeight(r.pages[0]) == input.body.height &&
      r.pages[0].drawn == Placement(0, 0, input.body.width, input.body.height) &&
      (r.pages[0].format == Png <==> input.mimetype == "image/png")
    ensures !IsPdf(input.mimetype) && !IsImage(input.mimetype) ==> r == Pages([])
    ensures r.Failed? ==> r.mimetype == input.mimetype
  {
    if IsPdf(input.mimetype) then
      match input.body
      case Document(pages) => Pages(CopyPages(pages))
      case _ => Failed(input.mimetype)
    else if IsImage(input.mimetype) then
      match input.body
      case Raster(w, h) =>
        var format := if input.mimetype == "image/png" then Png else Jpeg;
        Pages([ImagePage(w, h, format, Placement(0, 0, w, h))])
      case _ => Failed(input.mimetype)
    else
      Pages([])
  }

  /** `mergedPdf.copyPages(pdf, pdf.getPageIndices())`: every page, in the document's order. */
  function CopyPages(pages: seq<SourcePage>): (r: seq<Page>)
    ensures |r| == |pages|
    ensures forall k :: 0 <= k < |pages| ==> r[k] == Copied(pages[k])
  {
    if pages == [] then [] else [Copied(pages[0])] + CopyPages(pages[1..])
  }

  /** `r` with `prefix` in front of its pages; a failure stays the same failure. */
  function Prepend(prefix: seq<Page>, r: Assembled): Assembled
  {
    match r
    case Pages(ps) => Pages(prefix + ps)
    case Failed(m) => r
  }

  /** Prepending twice is prepending the two page runs joined. */
  lemma PrependTwice(a: seq<Page>, b: seq<Page>, r: Assembled)
    ensures Prepend(a, Prepend(b, r)) == Prepend(a + b, r)
  {
    if r.Pages? {
      assert a + (b + r.pages) == (a + b) + r.pages;
    }
  }

  /** The merged document: each file's contribution, in upload order; the first failure aborts. */
  function Assemble(inputs: seq<MergeInput>): Assembled
    decreases |inputs|
  {
    if inputs == [] then Pages([])
    else
      match Contribution(inputs[0])
      case Failed(m) => Failed(m)
      case Pages(ps) => Prepend(ps, Assemble(inputs[1..]))
  }

  /** The loop of the merge route: add each file's pages to the document, in order. */
  method MergePages(inputs: seq<MergeInput>) returns (r: Assembled)
    ensures r == Assemble(inputs)
  {
    var merged: seq<Page> := [];
    var i := 0;
    while i < |inputs|
      invariant 0 <= i <= |inputs|
      invariant Assemble(inputs) == Prepend(merged, Assemble(inputs[i..]))
    {
      assert inputs[i..][0] == inputs[i] && inputs[i..][1..] == inputs[i + 1..];
      var added := Contribution(inputs[i]);
      if added.Failed? {
        return added;
      }
      PrependTwice(merged, added.pages, Assemble(inputs[i + 1..]));
      merged := merged + added.pages;
      i := i + 1;
    }
    assert inputs[i..] == [];
    r := Pages(merged);
  }

  /** How many pages a file adds when it can be read. */
  function PageCountOf(input: MergeInput): nat
  {
    if IsPdf(input.mimetype) && input.body.Document? then |input.body.pages|
    else if IsImage(input.mimetype) then 1
    else 0
  }

  function PageCountSum(inputs: seq<MergeInput>): nat
    decreases |inputs|
  {
    if inputs == [] then 0 else PageCountOf(inputs[0]) + PageCountSum(inputs[1..])
  }

  /** A merged document has as many pages as its PDFs have, plus one per image. */
  lemma {:induction false} PageCountAddsUp(inputs: seq<MergeInput>)
    requires Assemble(inputs).Pages?
    ensures |Assemble(inputs).pages| == PageCountSum(inputs)
    decreases |inputs|
  {
    if inputs != [] {
      PageCountAddsUp(inputs[1..]);
    }
  }

  /** Either both results failed somewhere, or the pages of `a` come before those of `b`. */
  function Join(a: Assembled, b: Assembled): Assembled
  {
    match a
    case Failed(m) => a
    case Pages(ps) => Prepend(ps, b)
  }

  /** Prepending to a joined result is prepending to its first part. */
  lemma PrependJoin(prefix: seq<Page>, x: Assembled, y: Assembled)
    ensures Prepend(prefix, Join(x, y)) == Join(Prepend(prefix, x), y)
  {
    if x.Pages? && y.Pages? {
      assert prefix + (x.pages + y.pages) == (prefix + x.pages) + y.pages;
    }
  }

  /**
   * Merging two lists one after the other is merging each and putting the first's pages
   * first: the output keeps the upload order.
   */
  lemma {:induction false} AssembleKeepsOrder(a: seq<MergeInput>, b: seq<MergeInput>)
    ensures Assemble(a + b) == Join(Assemble(a), Assemble(b))
    decreases |a|
  {
    if a == [] {
      assert a + b == b;
    } else {
      assert (a + b)[0] == a[0] && (a + b)[1..] == a[1..] + b;
      AssembleKeepsOrder(a[1..], b);
      var first := Contribution(a[0]);
      if first.Pages? {
        PrependJoin(first.pages, Assemble(a[1..]), Assemble(b));
      }
    }
  }

  /** The two-file example: a two-page PDF then an 800x600 PNG make three pages, the last 800x600. */
  lemma PdfThenPngExample(p1: SourcePage, p2: SourcePage)
    ensures Assemble([MergeInput("application/pdf", Document([p1, p2])), MergeInput("image/png", Raster(800, 600))])
      == Pages([Copied(p1), Copied(p2), ImagePage(800, 600, Png, Placement(0, 0, 800, 600))])
  {
    var inputs := [MergeInput("application/pdf", Document([p1, p2])), MergeInput("image/png", Raster(800, 600))];
    var copied := CopyPages([p1, p2]);
    assert copied == [Copied(p1), Copied(p2)];
    assert inputs[1..][1..] == [];
    assert Assemble(inputs[1..]) == Pages([ImagePage(800, 600, Png, Placement(0, 0, 800, 600))]);
  }
}
