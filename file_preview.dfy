/** The attachment preview: nothing without a selected file, otherwise an icon chosen from the
    file name's extension beside the name. The size line, `(size / 1024).toFixed(1)`, is left
    out. */
module FilePreview {
  import opened Wrappers
  import opened Strings

  /** A selected file: its name and size in bytes. */
  datatype SelectedFile = SelectedFile(name: string, size: nat)

  datatype FileIcon = ImageIcon | PdfIcon | WordIcon | SpreadsheetIcon | TextIcon | VideoIcon | AudioIcon | AttachmentIcon

  const ImageExtensions := ["jpg", "jpeg", "png", "gif", "webp"]
  const WordExtensions := ["doc", "docx"]
  const SpreadsheetExtensions := ["xls", "xlsx"]
  const VideoExtensions := ["mp4", "avi", "mov", "wmv"]
  const AudioExtensions := ["mp3", "wav", "flac", "aac"]

  /** The emoji shown for each icon. */
  function Glyph(icon: FileIcon): string {
    match icon
    case ImageIcon => "\U{1F5BC}\U{FE0F}"
    case PdfIcon => "\U{1F4C4}"
    case WordIcon => "\U{1F4DD}"
    case SpreadsheetIcon => "\U{1F4CA}"
    case TextIcon => "\U{1F4C3}"
    case VideoIcon => "\U{1F3A5}"
    case AudioIcon => "\U{1F3B5}"
    case AttachmentIcon => "\U{1F4CE}"
  }

  /** Different icons show different glyphs. */
  lemma GlyphInjective(a: FileIcon, b: FileIcon)
    ensures Glyph(a) == Glyph(b) ==> a == b
  {
  }

  /** `fileName.split(".").pop()?.toLowerCase()`. */
  function Extension(fileName: string): (r: string)
    ensures |r| <= |fileName| && r == ToLower(fileName[|fileName| - |r|..])
    ensures '.' !in r && ToLower(r) == r
    ensures |r| < |fileName| ==> fileName[|fileName| - |r| - 1] == '.'
  {
    LastSegmentShape(fileName, '.');
    ToLowerIdempotent(LastSegment(fileName, '.'));
    ToLower(LastSegment(fileName, '.'))
  }

  /** The icon for a lower-cased extension, tested in the order `getFileIcon` checks the lists;
      everything else is an attachment. */
  function IconForExtension(ext: string): (icon: FileIcon)
    ensures icon == ImageIcon <==> ext in ImageExtensions
    ensures icon == PdfIcon <==> ext == "pdf"
    ensures icon == WordIcon <==> ext in WordExtensions
    ensures icon == SpreadsheetIcon <==> ext in SpreadsheetExtensions
    ensures icon == TextIcon <==> ext == "txt"
    ensures icon == VideoIcon <==> ext in VideoExtensions
    ensures icon == AudioIcon <==> ext in AudioExtensions
    ensures icon == AttachmentIcon <==>
              ext !in ImageExtensions + ["pdf"] + WordExtensions + SpreadsheetExtensions + ["txt"] + VideoExtensions + AudioExtensions
  {
    if ext in ImageExtensions then ImageIcon
    else if ext == "pdf" then PdfIcon
    else if ext in WordExtensions then WordIcon
    else if ext in SpreadsheetExtensions then SpreadsheetIcon
    else if ext == "txt" then TextIcon
    else if ext in VideoExtensions then VideoIcon
    else if ext in AudioExtensions then AudioIcon
    else AttachmentIcon
  }

  /** `getFileIcon(fileName)`. */
  function GetFileIcon(fileName: string): (r: string)
    ensures r == Glyph(ImageIcon) <==> Extension(fileName) in ImageExtensions
    ensures r == Glyph(PdfIcon) <==> Extension(fileName) == "pdf"
    ensures r == Glyph(WordIcon) <==> Extension(fileName) in WordExtensions
    ensures r == Glyph(SpreadsheetIcon) <==> Extension(fileName) in SpreadsheetExtensions
    ensures r == Glyph(TextIcon) <==> Extension(fileName) == "txt"
    ensures r == Glyph(VideoIcon) <==> Extension(fileName) in VideoExtensions
    ensures r == Glyph(AudioIcon) <==> Extension(fileName) in AudioExtensions
    ensures r == Glyph(AttachmentIcon) <==>
              Extension(fileName) !in ImageExtensions + ["pdf"] + WordExtensions + SpreadsheetExtensions + ["txt"]
                                      + VideoExtensions + AudioExtensions
  {
    Glyph(IconForExtension(Extension(fileName)))
  }

  /** The classification ignores the letter case of the file name. */
  lemma FileIconCaseInsensitive(fileName: string)
    ensures GetFileIcon(ToLower(fileName)) == GetFileIcon(fileName)
  {
    LastSegmentLower(fileName, '.');
    ToLowerIdempotent(LastSegment(fileName, '.'));
  }

  /** A name without a dot is classified by the whole name. */
  lemma NoDotUsesWholeName(fileName: string)
    requires '.' !in fileName
    ensures Extension(fileName) == ToLower(fileName)
  {
    LastSegmentShape(fileName, '.');
    var r := LastSegment(fileName, '.');
    assert fileName[|fileName| - |r|..] == fileName;
  }

  /** What the preview shows: nothing without a file, else the icon glyph and the name. */
  datatype PreviewView = PreviewView(glyph: string, fileName: string)

  function Preview(file: Option<SelectedFile>): (v: Option<PreviewView>)
    ensures v.None? <==> file.None?
    ensures v.Some? ==> v.value == PreviewView(GetFileIcon(file.value.name), file.value.name)
  {
    if file.None? then None else Some(PreviewView(GetFileIcon(file.value.name), file.value.name))
  }
}
