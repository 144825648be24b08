/**
 * The document helpers of main.py: the text of one uploaded file, chosen by
 * its media type, and the text of several files joined by single spaces.
 *
 * The parsing libraries (the PDF reader, the Word reader, UTF-8 decoding) are
 * parameters: each either yields its text or fails, a failure standing for
 * the library raising an exception.
 */
module Documents {
  import opened Wrappers
  import opened Sequences

  newtype byte = b: int | 0 <= b < 256

  /** An uploaded file: its declared media type and its bytes. */
  datatype UploadedFile = UploadedFile(mediaType: string, content: seq<byte>)

  /**
   * The parsing libraries: the text of each PDF page, the text of each Word
   * paragraph, and the UTF-8 decoding of a plain-text file; `None` when the
   * library raises.
   */
  datatype Readers = Readers(
    pdfPages: seq<byte> -> Option<seq<string>>,
    wordParagraphs: seq<byte> -> Option<seq<string>>,
    utf8: seq<byte> -> Option<string>)

  const PdfType := "application/pdf"
  const DocxType := "application/vnd.openxmlformats-officedocument.wordprocessingml.document"
  const DocType := "application/msword"
  const TextType := "text/plain"

  /** The media types whose text is extracted; every other type yields the empty text. */
  predicate Supported(mediaType: string)
  {
    mediaType == PdfType || mediaType == DocxType || mediaType == DocType || mediaType == TextType
  }

  /** `" ".join(parts)`: empty exactly when there is no part or a single empty one. */
  function Join(parts: seq<string>): (r: string)
    ensures r == "" <==> |parts| == 0 || (|parts| == 1 && parts[0] == "")
  {
    if |parts| == 0 then ""
    else if |parts| == 1 then parts[0]
    else parts[0] + " " + Join(parts[1..])
  }

  /** The total length of the parts. */
  function TotalLength(parts: seq<string>): nat
  {
    if |parts| == 0 then 0 else TotalLength(parts[..|parts| - 1]) + |parts[|parts| - 1]|
  }

  /** Where part `i` starts in the joined text: the parts before it and one space after each. */
  function Offset(parts: seq<string>, i: nat): nat
    requires i <= |parts|
  {
    TotalLength(parts[..i]) + i
  }

  lemma {:induction false} TotalLengthFront(parts: seq<string>)
    requires 0 < |parts|
    ensures TotalLength(parts) == |parts[0]| + TotalLength(parts[1..])
  {
    if |parts| > 1 {
      var last := |parts| - 1;
      assert parts[1..][..|parts[1..]| - 1] == parts[..last][1..];
      TotalLengthFront(parts[..last]);
    }
  }

  /** The joined text is as long as the parts together plus one space between each two. */
  lemma {:induction false} JoinLength(parts: seq<string>)
    requires 0 < |parts|
    ensures |Join(parts)| == TotalLength(parts) + |parts| - 1
  {
    TotalLengthFront(parts);
    if |parts| > 1 {
      JoinLength(parts[1..]);
    }
  }

  /** Part `i` of the tail starts one space after the first part and its own offset in the tail. */
  lemma OffsetFront(parts: seq<string>, i: nat)
    requires 0 < i <= |parts|
    ensures Offset(parts, i) == |parts[0]| + 1 + Offset(parts[1..], i - 1)
  {
    TotalLengthFront(parts[..i]);
    assert parts[..i][1..] == parts[1..][..i - 1];
  }

  /**
   * The layout of the joined text: part `i` occupies the text from
   * `Offset(parts, i)` on, in input order, and a single space precedes every
   * part but the first.
   */
  lemma {:induction false} JoinLayout(parts: seq<string>, i: nat)
    requires i < |parts|
    ensures var j := Join(parts); var at := Offset(parts, i);
      && at + |parts[i]| <= |j|
      && j[at..at + |parts[i]|] == parts[i]
      && (0 < i ==> j[at - 1] == ' ')
  {
    JoinLength(parts);
    if i == 0 {
      assert parts[..0] == [];
      if 1 < |parts| {
        assert Join(parts) == parts[0] + (" " + Join(parts[1..]));
      }
    } else {
      var rest := parts[1..];
      var head := parts[0] + " ";
      JoinLayout(rest, i - 1);
      OffsetFront(parts, i);
      assert Join(parts) == head + Join(rest);
      var at := Offset(rest, i - 1);
      assert Offset(parts, i) == |head| + at;
      assert Join(parts)[|head| + at..|head| + at + |parts[i]|] == Join(rest)[at..at + |rest[i - 1]|];
      if 1 < i {
        assert Join(parts)[|head| + at - 1] == Join(rest)[at - 1];
      }
    }
  }

  /**
   * The PDF page texts that are not empty (`if page.extract_text()`): every
   * page with text, as often as it occurs and in page order, and no other.
   */
  function NonEmpty(pages: seq<string>): (r: seq<string>)
    ensures forall i :: 0 <= i < |r| ==> r[i] != ""
    ensures forall t :: t in r <==> t in pages && t != ""
    ensures forall t :: t != "" ==> multiset(r)[t] == multiset(pages)[t]
    ensures IsSubsequence(r, pages)
    ensures (forall j :: 0 <= j < |pages| ==> pages[j] == "") ==> r == []
  {
    if |pages| == 0 then []
    else
      assert pages == [pages[0]] + pages[1..];
      if pages[0] == "" then
        SubsequenceDropFirst(NonEmpty(pages[1..]), pages);
        NonEmpty(pages[1..])
      else
        assert ([pages[0]] + NonEmpty(pages[1..]))[1..] == NonEmpty(pages[1..]);
        [pages[0]] + NonEmpty(pages[1..])
  }

  /**
   * `extract_text_from_file`: PDF pages with text joined by spaces, Word
   * paragraphs joined by spaces, plain text decoded as UTF-8; the empty text
   * for any other media type and whenever a library raises.
   */
  function ExtractText(readers: Readers, file: UploadedFile): (r: string)
    ensures !Supported(file.mediaType) ==> r == ""
    ensures file.mediaType == PdfType && readers.pdfPages(file.content).None? ==> r == ""
    ensures (file.mediaType == DocxType || file.mediaType == DocType) && readers.wordParagraphs(file.content).None? ==> r == ""
    ensures file.mediaType == TextType && readers.utf8(file.content).None? ==> r == ""
    ensures file.mediaType == TextType && readers.utf8(file.content).Some? ==> r == readers.utf8(file.content).value
    ensures file.mediaType == PdfType && readers.pdfPages(file.content).Some? ==>
      ((forall j :: 0 <= j < |readers.pdfPages(file.content).value| ==> readers.pdfPages(file.content).value[j] == "") ==> r == "")
  {
    if file.mediaType == PdfType then
      match readers.pdfPages(file.content)
      case None => ""
      case Some(pages) => Join(NonEmpty(pages))
    else if file.mediaType in [DocxType, DocType] then
      match readers.wordParagraphs(file.content)
      case None => ""
      case Some(paragraphs) => Join(paragraphs)
    else if file.mediaType == TextType then
      match readers.utf8(file.content)
      case None => ""
      case Some(text) => text
    else ""
  }

  /**
   * The text of a PDF whose reader succeeds: the pages with text one after
   * the other in page order, page `i` of them at `Offset`, a single space
   * before each but the first, and nothing else.
   */
  lemma PdfTextLayout(readers: Readers, file: UploadedFile, i: nat)
    requires file.mediaType == PdfType && readers.pdfPages(file.content).Some?
    requires i < |NonEmpty(readers.pdfPages(file.content).value)|
    ensures var pages := NonEmpty(readers.pdfPages(file.content).value);
      var t := ExtractText(readers, file); var at := Offset(pages, i);
      && |t| == TotalLength(pages) + |pages| - 1
      && at + |pages[i]| <= |t| && t[at..at + |pages[i]|] == pages[i]
      && (0 < i ==> t[at - 1] == ' ')
  {
    var pages := NonEmpty(readers.pdfPages(file.content).value);
    assert ExtractText(readers, file) == Join(pages);
    JoinLength(pages);
    JoinLayout(pages, i);
  }

  /**
   * The text of a Word document whose reader succeeds: every paragraph in
   * order, paragraph `i` at `Offset`, a single space before each but the
   * first, and nothing else.
   */
  lemma WordTextLayout(readers: Readers, file: UploadedFile, i: nat)
    requires file.mediaType == DocxType || file.mediaType == DocType
    requires readers.wordParagraphs(file.content).Some?
    requires i < |readers.wordParagraphs(file.content).value|
    ensures var paragraphs := readers.wordParagraphs(file.content).value;
      var t := ExtractText(readers, file); var at := Offset(paragraphs, i);
      && |t| == TotalLength(paragraphs) + |paragraphs| - 1
      && at + |paragraphs[i]| <= |t| && t[at..at + |paragraphs[i]|] == paragraphs[i]
      && (0 < i ==> t[at - 1] == ' ')
  {
    var paragraphs := readers.wordParagraphs(file.content).value;
    assert ExtractText(readers, file) == Join(paragraphs);
    JoinLength(paragraphs);
    JoinLayout(paragraphs, i);
  }

  /** The texts of the files, one per file, in order. */
  function Texts(readers: Readers, files: seq<UploadedFile>): (r: seq<string>)
    ensures |r| == |files|
    ensures forall i :: 0 <= i < |files| ==> r[i] == ExtractText(readers, files[i])
  {
    seq(|files|, i requires 0 <= i < |files| => ExtractText(readers, files[i]))
  }

  /**
   * `extract_text_from_multiple_files`: the text of every file, joined by
   * single spaces; empty exactly when there is no file or a single file
   * without text.
   */
  function ExtractFromMultipleFiles(readers: Readers, files: seq<UploadedFile>): (r: string)
    ensures r == "" <==> |files| == 0 || (|files| == 1 && ExtractText(readers, files[0]) == "")
  {
    Join(Texts(readers, files))
  }

  /**
   * The combined text holds the text of file `i` at `Offset`, in input
   * order, with a single space before each file but the first; it is as long
   * as the file texts together plus `n - 1` spaces, and empty for no file.
   */
  lemma MultipleFilesLayout(readers: Readers, files: seq<UploadedFile>, i: nat)
    requires i < |files|
    ensures var texts := Texts(readers, files); var all := ExtractFromMultipleFiles(readers, files);
      && |all| == TotalLength(texts) + |files| - 1
      && Offset(texts, i) + |texts[i]| <= |all|
      && all[Offset(texts, i)..Offset(texts, i) + |texts[i]|] == ExtractText(readers, files[i])
      && (0 < i ==> all[Offset(texts, i) - 1] == ' ')
  {
    var texts := Texts(readers, files);
    assert ExtractFromMultipleFiles(readers, files) == Join(texts);
    JoinLength(texts);
    JoinLayout(texts, i);
  }
}
