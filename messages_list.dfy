/** The message list's rendering decision: the loading banner, the error or empty state, and for
    each message its side, its avatar and how its content is shown (media, document link or text
    bubble). The two URL regular expressions `/https?:\/\/.*\.(?:gif|mp4)/i` and
    `/https?:\/\/.*\.(?:jpg|jpeg|png|pdf|doc|docx|xls|xlsx|txt)/i` are modelled by a declarative
    predicate (some scheme occurrence followed, on the same line, by a dot and an extension) and
    an executable left-to-right scanner proved equivalent to it. */
module MessagesList {
  import opened Wrappers
  import opened Strings
  import opened Records
  import MessageContext
  import ChatView

  /** The characters `.` does not match in a JavaScript regular expression. */
  predicate IsLineTerminator(c: char) {
    c == '\n' || c == '\r' || c == '\U{2028}' || c == '\U{2029}'
  }

  /** The length of the `https?://` match at offset `i` of a lower-cased text, 0 when there is
      none. */
  function SchemeLen(t: string, i: nat): (n: nat)
    ensures n == 0 || n == 7 || n == 8
    ensures n > 0 ==> i + n <= |t|
  {
    if OccursAt(t, "https://", i) then 8 else if OccursAt(t, "http://", i) then 7 else 0
  }

  /** A dot and one of `exts` occur at offset `j`. */
  predicate ExtAt(t: string, j: nat, exts: seq<string>) {
    exists k :: 0 <= k < |exts| && OccursAt(t, "." + exts[k], j)
  }

  /** No line terminator in `t[p..j]`. */
  predicate OnOneLine(t: string, p: nat, j: nat) {
    p <= j <= |t| && forall m :: p <= m < j ==> !IsLineTerminator(t[m])
  }

  /** The pattern matches starting with the scheme at `i` and reaching the extension at `j`. */
  predicate MatchAt(t: string, i: nat, j: nat, exts: seq<string>) {
    SchemeLen(t, i) > 0 && OnOneLine(t, i + SchemeLen(t, i), j) && ExtAt(t, j, exts)
  }

  /** The declarative reading of the (case-insensitive, unanchored) pattern. */
  ghost predicate PatternMatches(s: string, exts: seq<string>) {
    exists i: nat, j: nat :: MatchAt(ToLower(s), i, j, exts)
  }

  /** Scans forward from `p` on the current line for a dot and extension. */
  predicate ExtAhead(t: string, p: nat, exts: seq<string>)
    decreases |t| - p
  {
    p <= |t| && (ExtAt(t, p, exts) || (p < |t| && !IsLineTerminator(t[p]) && ExtAhead(t, p + 1, exts)))
  }

  /** Tries every start offset from `i` on. */
  predicate Search(t: string, i: nat, exts: seq<string>)
    decreases |t| - i
  {
    i <= |t| && ((SchemeLen(t, i) > 0 && ExtAhead(t, i + SchemeLen(t, i), exts)) || (i < |t| && Search(t, i + 1, exts)))
  }

  /** The forward scan finds an extension exactly when one is reachable on the same line. */
  lemma {:induction false} ExtAheadIff(t: string, p: nat, exts: seq<string>)
    ensures ExtAhead(t, p, exts) <==> exists j: nat :: OnOneLine(t, p, j) && ExtAt(t, j, exts)
    decreases |t| - p
  {
    if p <= |t| {
      if ExtAt(t, p, exts) {
        assert OnOneLine(t, p, p);
      } else if p < |t| && !IsLineTerminator(t[p]) {
        ExtAheadIff(t, p + 1, exts);
        if ExtAhead(t, p + 1, exts) {
          var j: nat :| OnOneLine(t, p + 1, j) && ExtAt(t, j, exts);
          assert OnOneLine(t, p, j);
        }
        forall j: nat | OnOneLine(t, p, j) && ExtAt(t, j, exts) ensures ExtAhead(t, p, exts) {
          assert j != p;
          assert OnOneLine(t, p + 1, j);
        }
      }
    }
  }

  /** The scanner from offset `i` succeeds exactly when some match starts at or after `i`. */
  lemma {:induction false} SearchIff(t: string, i: nat, exts: seq<string>)
    requires i <= |t|
    ensures Search(t, i, exts) <==> exists i': nat, j: nat :: i <= i' && MatchAt(t, i', j, exts)
    decreases |t| - i
  {
    var n := SchemeLen(t, i);
    if n > 0 {
      ExtAheadIff(t, i + n, exts);
    }
    if i < |t| {
      SearchIff(t, i + 1, exts);
    }
    if Search(t, i, exts) {
      if n > 0 && ExtAhead(t, i + n, exts) {
        var j: nat :| OnOneLine(t, i + n, j) && ExtAt(t, j, exts);
        assert MatchAt(t, i, j, exts);
      } else {
        var i': nat, j: nat :| i + 1 <= i' && MatchAt(t, i', j, exts);
        assert i <= i';
      }
    }
    forall i': nat, j: nat | i <= i' && MatchAt(t, i', j, exts) ensures Search(t, i, exts) {
      if i' == i {
        assert OnOneLine(t, i + n, j) && ExtAt(t, j, exts);
      } else {
        assert i + 1 <= i';
      }
    }
  }

  /** `content.match(pattern)` as the scanner computes it. */
  predicate ScanMatches(s: string, exts: seq<string>) {
    Search(ToLower(s), 0, exts)
  }

  /** The scanner computes the pattern. */
  lemma ScanMatchesIff(s: string, exts: seq<string>)
    ensures ScanMatches(s, exts) <==> PatternMatches(s, exts)
  {
    SearchIff(ToLower(s), 0, exts);
  }

  /** The pattern ignores letter case. */
  lemma PatternCaseInsensitive(s: string, exts: seq<string>)
    ensures PatternMatches(ToLower(s), exts) <==> PatternMatches(s, exts)
  {
    ToLowerIdempotent(s);
  }

  const MediaExtensions := ["gif", "mp4"]
  const DocumentExtensions := ["jpg", "jpeg", "png", "pdf", "doc", "docx", "xls", "xlsx", "txt"]

  /** How a message's content is shown. */
  datatype ContentKind =
    | Media(src: string)
    | DocumentLink(href: string, linkText: string)
    | TextBubble(text: string)

  /** Media first, then a document link labelled with the text after the last "/", otherwise
      the text itself. */
  function Classify(content: string): (k: ContentKind)
    ensures PatternMatches(content, MediaExtensions) ==> k == Media(Trim(content))
    ensures !PatternMatches(content, MediaExtensions) && PatternMatches(content, DocumentExtensions) ==>
              k == DocumentLink(Trim(content), LastSegment(content, '/'))
    ensures !PatternMatches(content, MediaExtensions) && !PatternMatches(content, DocumentExtensions) ==>
              k == TextBubble(content)
  {
    ScanMatchesIff(content, MediaExtensions);
    ScanMatchesIff(content, DocumentExtensions);
    if ScanMatches(content, MediaExtensions) then Media(Trim(content))
    else if ScanMatches(content, DocumentExtensions) then DocumentLink(Trim(content), LastSegment(content, '/'))
    else TextBubble(content)
  }

  /** A link's text is the file name: a suffix of the content with no "/" in it, preceded by a
      "/" unless it is the whole content. */
  lemma DocumentLabelIsFileName(content: string)
    requires Classify(content).DocumentLink?
    ensures var linkText := Classify(content).linkText;
            && |linkText| <= |content| && content[|content| - |linkText|..] == linkText && '/' !in linkText
            && (|linkText| < |content| ==> content[|content| - |linkText| - 1] == '/')
  {
    LastSegmentShape(content, '/');
  }

  /** A GIF link written in capitals is still media. */
  lemma UpperCaseGifIsMedia()
    ensures Classify("HTTPS://X.IO/A.GIF").Media?
  {
    var t := ToLower("HTTPS://X.IO/A.GIF");
    assert t == "https://x.io/a.gif";
    assert OccursAt(t, "https://", 0);
    assert OccursAt(t, "." + MediaExtensions[0], 14);
    assert MatchAt(t, 0, 14, MediaExtensions);
  }

  /** The avatar beside someone else's message: the conversation's avatar URL or the
      placeholder, with the name's initials as fallback. */
  datatype Avatar = Avatar(src: string, fallback: string)

  /** One rendered message. */
  datatype Bubble = Bubble(id: string, alignEnd: bool, avatar: Option<Avatar>, kind: ContentKind)

  /** What the list area shows besides the loading banner. */
  datatype Body = ErrorShown(message: string) | EmptyState | Items(items: seq<Bubble>)

  datatype View = View(loadingBanner: bool, body: Body)

  function RenderMessage(m: MessageContext.Message, avatarUrl: Option<string>, name: string): (b: Bubble)
    ensures b.id == m.id && b.kind == Classify(m.content)
    ensures b.alignEnd <==> m.isOwn
    ensures b.avatar.Some? <==> !m.isOwn
    ensures b.avatar.Some? ==> b.avatar.value == Avatar(OrElse(avatarUrl, "/placeholder.svg"), ChatView.Initials(name))
  {
    Bubble(m.id, m.isOwn,
           if m.isOwn then None else Some(Avatar(OrElse(avatarUrl, "/placeholder.svg"), ChatView.Initials(name))),
           Classify(m.content))
  }

  /** The message list. */
  function Render(messages: seq<MessageContext.Message>, loading: bool, error: Option<string>,
                  avatarUrl: Option<string>, name: string): (v: View)
    ensures v.loadingBanner == loading
    ensures Truthy(error) ==> v.body == ErrorShown(error.value)
    ensures v.body == EmptyState <==> !Truthy(error) && messages == [] && !loading
    ensures v.body.Items? <==> !Truthy(error) && (messages != [] || loading)
    ensures v.body.Items? ==> |v.body.items| == |messages|
    ensures v.body.Items? ==>
              forall i :: 0 <= i < |messages| ==> v.body.items[i] == RenderMessage(messages[i], avatarUrl, name)
  {
    View(loading,
         if Truthy(error) then ErrorShown(error.value)
         else if messages == [] && !loading then EmptyState
         else Items(seq(|messages|, i requires 0 <= i < |messages| => RenderMessage(messages[i], avatarUrl, name))))
  }
}
