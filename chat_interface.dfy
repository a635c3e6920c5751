/** The first-generation advisory chat: a message list with a "thinking"
    placeholder that the model's reply replaces, the grounding sources of
    that reply, and the light markup of its text (lines, bullets and
    `**bold**` spans). The Gemini client is replaced by a reply outcome and
    `Date.now()` by a stamp. */
module ChatInterface {
  import opened Common

  const WelcomeId := "welcome"
  const InitMarker := "Initialize my facility context"
  const InitPrompt := InitMarker + " and give me a weather-aware storage advisory for my location."
  const NoResponseText := "No response."
  const ErrorText := "Error connecting to AI."
  const DefaultSourceTitle := "Source"
  const LabelLength := 15

  datatype Role = UserRole | ModelRole

  datatype GroundingLink = GroundingLink(uri: string, title: string)

  datatype Message = Message(
    id: string, role: Role, text: string, isThinking: bool, sources: Option<seq<GroundingLink>>)

  /** `chunk.web`, with its optional `uri` and `title`. */
  datatype Web = Web(uri: Option<string>, title: Option<string>)
  datatype Chunk = Chunk(web: Option<Web>)

  /** What the model call gives back: its text and grounding chunks (each
      possibly absent), or an exception. */
  datatype ReplyOutcome = Reply(text: Option<string>, chunks: Option<seq<Chunk>>) | ReplyThrew

  function WelcomeText(location: string): string {
    "Connecting to PotatoGuard Advisory... Checking weather for " + location + "."
  }

  // ---------------------------------------------------------------- sources

  /** `chunk.web?.uri` is truthy. */
  predicate HasUri(c: Chunk) {
    c.web.Some? && c.web.value.uri.Some? && c.web.value.uri.value != ""
  }

  function LinkOf(c: Chunk): GroundingLink
    requires HasUri(c)
  {
    var t := c.web.value.title;
    GroundingLink(c.web.value.uri.value, if t.Some? && t.value != "" then t.value else DefaultSourceTitle)
  }

  /** The links of the chunks that carry a uri, in chunk order. */
  function Sources(chunks: seq<Chunk>): seq<GroundingLink> {
    if chunks == [] then []
    else
      var last := chunks[|chunks| - 1];
      Sources(chunks[..|chunks| - 1]) + (if HasUri(last) then [LinkOf(last)] else [])
  }

  /** Only chunks with a uri contribute, each exactly its own link, in the
      same order and never more than one per chunk. */
  lemma {:induction false} SourcesFaithful(chunks: seq<Chunk>)
    ensures |Sources(chunks)| <= |chunks|
    ensures forall l :: l in Sources(chunks) <==> exists c :: c in chunks && HasUri(c) && LinkOf(c) == l
    ensures (forall c :: c in chunks ==> !HasUri(c)) <==> Sources(chunks) == []
    ensures forall l :: l in Sources(chunks) ==> l.uri != "" && l.title != ""
  {
    if chunks != [] {
      var init := chunks[..|chunks| - 1];
      SourcesFaithful(init);
      assert chunks == init + [chunks[|chunks| - 1]];
    }
  }

  /** Sources of consecutive runs of chunks are concatenated in order. */
  lemma {:induction false} SourcesConcat(a: seq<Chunk>, b: seq<Chunk>)
    ensures Sources(a + b) == Sources(a) + Sources(b)
    decreases |b|
  {
    if b == [] {
      assert a + b == a;
    } else {
      var init := b[..|b| - 1];
      SourcesConcat(a, init);
      assert (a + b)[..|a + b| - 1] == a + init;
    }
  }

  /** The `forEach` over the chunks that pushes one link per chunk with a
      uri. */
  method ExtractSources(chunks: seq<Chunk>) returns (sources: seq<GroundingLink>)
    ensures sources == Sources(chunks)
  {
    sources := [];
    var i := 0;
    while i < |chunks|
      invariant 0 <= i <= |chunks|
      invariant sources == Sources(chunks[..i])
    {
      var c := chunks[i];
      assert chunks[..i + 1][..i] == chunks[..i];
      if HasUri(c) {
        sources := sources + [LinkOf(c)];
      }
      i := i + 1;
    }
    assert chunks[..i] == chunks;
  }

  /** The text a reply leaves in its placeholder: never empty. */
  function ReplyText(outcome: ReplyOutcome): (r: string)
    ensures r != ""
    ensures outcome.ReplyThrew? ==> r == ErrorText
    ensures outcome.Reply? && outcome.text.Some? && outcome.text.value != "" ==> r == outcome.text.value
    ensures outcome.Reply? && (outcome.text.None? || outcome.text.value == "") ==> r == NoResponseText
  {
    match outcome
    case ReplyThrew => ErrorText
    case Reply(text, _) => if text.Some? && text.value != "" then text.value else NoResponseText
  }

  /** A source link's label: at most the first 15 characters of the title,
      then an ellipsis. */
  function SourceLabel(title: string): (r: string)
    ensures |r| <= LabelLength + 3 && EndsWith(r, "...")
    ensures StartsWith(title, r[..|r| - 3])
    ensures |title| <= LabelLength ==> r == title + "..."
    ensures |title| > LabelLength ==> r == title[..LabelLength] + "..."
  {
    title[..Min(LabelLength, |title|)] + "..."
  }

  // --------------------------------------------------------------- bold

  /** The characters `.` does not match in a JavaScript regular expression. */
  predicate IsLineTerminator(c: char) {
    c == '\n' || c == '\r' || c == '\U{2028}' || c == '\U{2029}'
  }

  /** Two asterisks starting at `i`. */
  predicate MarkerAt(s: string, i: nat) {
    i + 1 < |s| && s[i] == '*' && s[i + 1] == '*'
  }

  /** The marker test is the substring test for "**". */
  lemma MarkerIsOccurrence(s: string, i: nat)
    ensures MarkerAt(s, i) <==> OccursAt(s, "**", i)
  {
    if i + 2 <= |s| {
      var w := s[i..i + 2];
      assert w[0] == s[i] && w[1] == s[i + 1];
      if MarkerAt(s, i) {
        assert w == "**";
      }
    }
  }

  /** The lazy `.*?\*\*` scanned from `j`: the end of the first closing
      `**`, provided no line terminator comes before it. */
  function ScanClose(s: string, j: nat): (r: Option<nat>)
    requires j <= |s|
    ensures r.Some? ==> j + 2 <= r.value <= |s| && MarkerAt(s, r.value - 2)
    ensures r.Some? ==> forall p :: j <= p < r.value - 2 ==> !MarkerAt(s, p) && !IsLineTerminator(s[p])
    decreases |s| - j
  {
    if j + 2 > |s| then None
    else if MarkerAt(s, j) then Some(j + 2)
    else if IsLineTerminator(s[j]) then None
    else ScanClose(s, j + 1)
  }

  /** The end of a match of `\*\*.*?\*\*` starting at `k`, if any. */
  function MatchAt(s: string, k: nat): (r: Option<nat>)
    requires k <= |s|
    ensures r.Some? ==> k + 4 <= r.value <= |s|
  {
    if MarkerAt(s, k) then ScanClose(s, k + 2) else None
  }

  /** `s.split(/(\*\*.*?\*\*)/g)` from position `k`, the current piece
      having begun at `start`: text pieces alternate with the matches,
      which the capture group keeps. */
  function SplitFrom(s: string, start: nat, k: nat): (r: seq<string>)
    requires start <= k <= |s|
    ensures |r| % 2 == 1
    decreases |s| - k
  {
    if k == |s| then [s[start..]]
    else match MatchAt(s, k)
      case Some(e) => [s[start..k], s[k..e]] + SplitFrom(s, e, e)
      case None => SplitFrom(s, start, k + 1)
  }

  function BoldParts(s: string): seq<string> {
    SplitFrom(s, 0, 0)
  }

  function Concat(parts: seq<string>): string {
    if parts == [] then "" else parts[0] + Concat(parts[1..])
  }

  /** A bold match: `**`, a run in which no `**` begins and with no line
      break, then `**`. */
  predicate IsMarked(p: string) {
    && |p| >= 4 && MarkerAt(p, 0) && MarkerAt(p, |p| - 2)
    && forall i :: 2 <= i < |p| - 2 ==> !MarkerAt(p, i) && !IsLineTerminator(p[i])
  }

  lemma ConcatPair(a: string, b: string, rest: seq<string>)
    ensures Concat([a, b] + rest) == a + b + Concat(rest)
  {
    assert ([a, b] + rest)[1..] == [b] + rest;
    assert ([b] + rest)[1..] == rest;
  }

  /** A text piece and a match in front of a tail that rebuilds the rest. */
  lemma ConcatAround(s: string, start: nat, k: nat, e: nat, rest: seq<string>)
    requires start <= k <= e <= |s| && Concat(rest) == s[e..]
    ensures Concat([s[start..k], s[k..e]] + rest) == s[start..]
  {
    ConcatPair(s[start..k], s[k..e], rest);
    assert s[start..] == s[start..k] + s[k..e] + s[e..];
  }

  lemma {:induction false} SplitFromConcat(s: string, start: nat, k: nat)
    requires start <= k <= |s|
    ensures Concat(SplitFrom(s, start, k)) == s[start..]
    decreases |s| - k
  {
    if k == |s| {
      assert [s[start..]][1..] == [];
    } else {
      match MatchAt(s, k)
      case Some(e) =>
        assert SplitFrom(s, start, k) == [s[start..k], s[k..e]] + SplitFrom(s, e, e);
        SplitFromConcat(s, e, e);
        ConcatAround(s, start, k, e, SplitFrom(s, e, e));
      case None =>
        assert SplitFrom(s, start, k) == SplitFrom(s, start, k + 1);
        SplitFromConcat(s, start, k + 1);
    }
  }

  /** What the lazy scan guarantees about a match. */
  lemma MatchIsMarked(s: string, k: nat, e: nat)
    requires k <= |s| && MatchAt(s, k) == Some(e)
    ensures IsMarked(s[k..e])
  {
    assert MarkerAt(s, k) && ScanClose(s, k + 2) == Some(e);
    var m := s[k..e];
    forall i | 2 <= i < |m| - 2
      ensures !MarkerAt(m, i) && !IsLineTerminator(m[i])
    {
      assert m[i] == s[k + i] && m[i + 1] == s[k + i + 1];
    }
    assert m[0] == s[k] && m[1] == s[k + 1];
    assert m[|m| - 2] == s[e - 2] && m[|m| - 1] == s[e - 1];
  }

  lemma {:induction false} SplitFromShape(s: string, start: nat, k: nat)
    requires start <= k <= |s|
    ensures |SplitFrom(s, start, k)| % 2 == 1
    ensures forall i :: 0 <= i < |SplitFrom(s, start, k)| && i % 2 == 1 ==> IsMarked(SplitFrom(s, start, k)[i])
    decreases |s| - k
  {
    if k < |s| {
      match MatchAt(s, k)
      case Some(e) =>
        SplitFromShape(s, e, e);
        var rest := SplitFrom(s, e, e);
        var parts := [s[start..k], s[k..e]] + rest;
        assert SplitFrom(s, start, k) == parts;
        forall i | 0 <= i < |parts| && i % 2 == 1
          ensures IsMarked(parts[i])
        {
          if i == 1 {
            MatchIsMarked(s, k, e);
          } else {
            assert parts[i] == rest[i - 2];
          }
        }
      case None =>
        SplitFromShape(s, start, k + 1);
    }
  }

  /** A text piece: no stretch of it is a bold match. */
  predicate HasNoMatch(p: string) {
    forall a, b :: 0 <= a <= b <= |p| ==> !IsMarked(p[a..b])
  }

  /** The lazy scan from `j` stops at the first closing marker. */
  lemma {:induction false} ScanFindsClose(s: string, j: nat, y: nat)
    requires j + 2 <= y <= |s| && MarkerAt(s, y - 2)
    requires forall p :: j <= p < y - 2 ==> !MarkerAt(s, p) && !IsLineTerminator(s[p])
    ensures ScanClose(s, j) == Some(y)
    decreases y - j
  {
    if j < y - 2 {
      ScanFindsClose(s, j + 1, y);
    }
  }

  /** Wherever a bold match stands in the line, the split finds it there. */
  lemma MarkedIsMatch(s: string, x: nat, y: nat)
    requires x <= y <= |s|
    ensures IsMarked(s[x..y]) ==> MatchAt(s, x) == Some(y)
  {
    var m := s[x..y];
    if IsMarked(m) {
      assert m[0] == s[x] && m[1] == s[x + 1];
      assert m[|m| - 2] == s[y - 2] && m[|m| - 1] == s[y - 1];
      forall p | x + 2 <= p < y - 2
        ensures !MarkerAt(s, p) && !IsLineTerminator(s[p])
      {
        assert m[p - x] == s[p] && m[p - x + 1] == s[p + 1];
      }
      ScanFindsClose(s, x + 2, y);
    }
  }

  /** A stretch over which the scan found no match holds none. */
  lemma PlainPiece(s: string, start: nat, k: nat)
    requires start <= k <= |s|
    requires forall q :: start <= q < k ==> MatchAt(s, q).None?
    ensures HasNoMatch(s[start..k])
  {
    var piece := s[start..k];
    forall a, b | 0 <= a <= b <= |piece|
      ensures !IsMarked(piece[a..b])
    {
      var here, there := piece[a..b], s[start + a..start + b];
      forall t | 0 <= t < |here| ensures here[t] == there[t] {
        assert here[t] == piece[a + t] == s[start + a + t];
      }
      assert here == there;
      MarkedIsMatch(s, start + a, start + b);
      if a < |piece| {
        assert MatchAt(s, start + a).None?;
      }
    }
  }

  lemma {:induction false} SplitFromPlain(s: string, start: nat, k: nat)
    requires start <= k <= |s|
    requires forall q :: start <= q < k ==> MatchAt(s, q).None?
    ensures forall i :: 0 <= i < |SplitFrom(s, start, k)| && i % 2 == 0 ==> HasNoMatch(SplitFrom(s, start, k)[i])
    decreases |s| - k
  {
    if k == |s| {
      PlainPiece(s, start, k);
      assert s[start..k] == s[start..];
    } else {
      match MatchAt(s, k)
      case Some(e) =>
        PlainPiece(s, start, k);
        SplitFromPlain(s, e, e);
        var rest := SplitFrom(s, e, e);
        var parts := [s[start..k], s[k..e]] + rest;
        assert SplitFrom(s, start, k) == parts;
        forall i | 0 <= i < |parts| && i % 2 == 0
          ensures HasNoMatch(parts[i])
        {
          if i >= 2 {
            assert parts[i] == rest[i - 2];
          }
        }
      case None =>
        SplitFromPlain(s, start, k + 1);
    }
  }

  /** Concatenating the split parts gives back the line; the parts
      alternate between text pieces, none of which holds a bold match,
      and complete `**…**` matches. */
  lemma BoldPartsFaithful(s: string)
    ensures Concat(BoldParts(s)) == s
    ensures |BoldParts(s)| % 2 == 1
    ensures forall i :: 0 <= i < |BoldParts(s)| && i % 2 == 1 ==> IsMarked(BoldParts(s)[i])
    ensures forall i :: 0 <= i < |BoldParts(s)| && i % 2 == 0 ==> HasNoMatch(BoldParts(s)[i])
  {
    SplitFromConcat(s, 0, 0);
    SplitFromShape(s, 0, 0);
    SplitFromPlain(s, 0, 0);
  }

  lemma {:induction false} SplitWithoutMarkers(s: string, start: nat, k: nat)
    requires start <= k <= |s| && !Contains(s, "**")
    ensures SplitFrom(s, start, k) == [s[start..]]
    decreases |s| - k
  {
    if k < |s| {
      assert !OccursAt(s, "**", k);
      MarkerIsOccurrence(s, k);
      SplitWithoutMarkers(s, start, k + 1);
    }
  }

  datatype Span = Plain(text: string) | Bold(text: string)

  /** `part.slice(2, -2)`. */
  function Unmark(p: string): string {
    if |p| >= 4 then p[2..|p| - 2] else ""
  }

  function RenderPart(p: string): Span {
    if StartsWith(p, "**") && EndsWith(p, "**") then Bold(Unmark(p)) else Plain(p)
  }

  /** parseBold: one span per split part. */
  function ParseBold(s: string): (r: seq<Span>)
    ensures |r| == |BoldParts(s)|
  {
    var parts := BoldParts(s);
    seq(|parts|, i requires 0 <= i < |parts| => RenderPart(parts[i]))
  }

  /** A match starts and ends with the two-character marker string. */
  lemma MarkedHasMarkers(p: string)
    requires IsMarked(p)
    ensures StartsWith(p, "**") && EndsWith(p, "**")
  {
    MarkerIsOccurrence(p, 0);
    MarkerIsOccurrence(p, |p| - 2);
  }

  /** Each `**…**` match is shown bold with both markers stripped. */
  lemma MatchesRenderBold(s: string, i: nat)
    requires i < |BoldParts(s)| && i % 2 == 1
    ensures var p := BoldParts(s)[i];
            && |p| >= 4 && StartsWith(p, "**") && EndsWith(p, "**")
            && ParseBold(s)[i] == Bold(p[2..|p| - 2]) && "**" + ParseBold(s)[i].text + "**" == p
  {
    BoldPartsFaithful(s);
    var p := BoldParts(s)[i];
    MarkedHasMarkers(p);
    assert p == p[..2] + p[2..|p| - 2] + p[|p| - 2..];
  }

  /** A line without `**` is one plain span holding the whole line. */
  lemma UnmarkedLineIsPlain(s: string)
    requires !Contains(s, "**")
    ensures ParseBold(s) == [Plain(s)]
  {
    SplitWithoutMarkers(s, 0, 0);
    assert !StartsWith(s, "**") by {
      if StartsWith(s, "**") {
        assert OccursAt(s, "**", 0);
      }
    }
  }

  /** A line that is only `**` is not a match, yet as a part it starts and
      ends with `**`, so it is shown as an empty bold span: the two
      asterisks disappear. */
  lemma LoneMarkersVanish()
    ensures ParseBold("**") == [Bold("")]
  {
    assert !OccursAt("**", "**", 1);
    assert MatchAt("**", 0) == None;
    assert MatchAt("**", 1) == None;
  }

  // --------------------------------------------------------------- lines

  /** `text.split('\n')`. */
  function SplitLines(s: string): (r: seq<string>)
    ensures |r| >= 1
    ensures forall i, j :: 0 <= i < |r| && 0 <= j < |r[i]| ==> r[i][j] != '\n'
    decreases |s|
  {
    if s == [] then [""]
    else
      var rest := SplitLines(s[1..]);
      if s[0] == '\n' then [""] + rest else [[s[0]] + rest[0]] + rest[1..]
  }

  lemma JoinGrowsFirst(c: char, parts: seq<string>, sep: string)
    requires |parts| >= 1
    ensures Join([[c] + parts[0]] + parts[1..], sep) == [c] + Join(parts, sep)
  {
    var q := [[c] + parts[0]] + parts[1..];
    if |parts| > 1 {
      assert q[1..] == parts[1..];
    }
  }

  function LineFeeds(s: string): nat {
    if s == [] then 0 else (if s[0] == '\n' then 1 else 0) + LineFeeds(s[1..])
  }

  /** Joining the lines with '\n' gives back the text, and there is one
      line more than there are line feeds. */
  lemma {:induction false} SplitLinesFaithful(s: string)
    ensures Join(SplitLines(s), "\n") == s
    ensures |SplitLines(s)| == LineFeeds(s) + 1
    decreases |s|
  {
    if s != [] {
      SplitLinesFaithful(s[1..]);
      var rest := SplitLines(s[1..]);
      if s[0] == '\n' {
        assert ([""] + rest)[1..] == rest;
        assert s == "\n" + s[1..];
      } else {
        JoinGrowsFirst(s[0], rest, "\n");
        assert s == [s[0]] + s[1..];
      }
    }
  }

  datatype Line = Spacer | Bullet(spans: seq<Span>) | Paragraph(spans: seq<Span>)

  predicate IsBulletLine(t: string) {
    StartsWith(t, "* ") || StartsWith(t, "- ")
  }

  function RenderLine(line: string): Line {
    var t := Trim(line);
    if t == [] then Spacer
    else if IsBulletLine(t) then Bullet(ParseBold(t[2..]))
    else Paragraph(ParseBold(line))
  }

  /** renderMessageContent: one rendered line per line of the text. */
  function RenderContent(text: string): (r: seq<Line>)
    ensures |r| == |SplitLines(text)|
  {
    var lines := SplitLines(text);
    seq(|lines|, i requires 0 <= i < |lines| => RenderLine(lines[i]))
  }

  /** A blank line becomes a spacer; a line whose trimmed form begins with
      "* " or "- " a bullet of the rest of it; any other line a paragraph
      of the whole, untrimmed line. */
  lemma RenderContentClassifies(text: string, i: nat)
    requires i < |SplitLines(text)|
    ensures var line := SplitLines(text)[i];
            && (RenderContent(text)[i] == Spacer <==> AllWhitespace(line))
            && (RenderContent(text)[i].Bullet? <==> !AllWhitespace(line) && IsBulletLine(Trim(line)))
            && (RenderContent(text)[i].Bullet? ==>
                  RenderContent(text)[i].spans == ParseBold(Trim(line)[2..]))
            && (RenderContent(text)[i].Paragraph? ==> RenderContent(text)[i].spans == ParseBold(line))
  {
    TrimEmptyIff(SplitLines(text)[i]);
  }

  // ----------------------------------------------------------------- state

  /** The user's own message for a send: none for the start-up prompt. */
  function Echo(text: string, stamp: nat): (r: seq<Message>)
    ensures r == [] <==> Contains(text, InitMarker)
    ensures r != [] ==> r == [Message(NatToString(stamp), UserRole, text, false, None)]
  {
    if Contains(text, InitMarker) then [] else [Message(NatToString(stamp), UserRole, text, false, None)]
  }

  /** The thinking placeholder a send appends, identified by the next stamp. */
  function Placeholder(stamp: nat): (m: Message)
    ensures m.id == NatToString(stamp + 1) && m.role == ModelRole && m.text == "" && m.isThinking && m.sources == None
  {
    Message(NatToString(stamp + 1), ModelRole, "", true, None)
  }

  class Advisor {
    const location: string
    var messages: seq<Message>
    var inputValue: string
    var isLoading: bool

    constructor (location: string)
      ensures this.location == location
      ensures messages == [Message(WelcomeId, ModelRole, WelcomeText(location), false, None)]
      ensures inputValue == "" && !isLoading
    {
      this.location := location;
      messages := [Message(WelcomeId, ModelRole, WelcomeText(location), false, None)];
      inputValue := "";
      isLoading := false;
    }

    /** The Send button's disabled state. */
    predicate SendDisabled()
      reads this
      ensures SendDisabled() <==> isLoading || AllWhitespace(inputValue)
    {
      TrimEmptyIff(inputValue);
      isLoading || Trim(inputValue) == []
    }

    method HandleInputChange(text: string)
      modifies this
      ensures inputValue == text && messages == old(messages) && isLoading == old(isLoading)
    {
      inputValue := text;
    }

    /** The first half of handleSend, up to the model call: blank text or a
      call while loading changes nothing; otherwise the user's message
      (unless it is the start-up prompt) and one thinking placeholder are
      appended and the input is cleared. Returns the placeholder's id. */
    method HandleSend(text: string, stamp: nat) returns (responseId: Option<string>)
      modifies this
      ensures responseId.None? <==> Trim(text) == [] || old(isLoading)
      ensures responseId.None? ==>
                messages == old(messages) && inputValue == old(inputValue) && isLoading == old(isLoading)
      ensures responseId.Some? ==>
                && responseId.value == Placeholder(stamp).id
                && messages == old(messages) + Echo(text, stamp) + [Placeholder(stamp)]
                && inputValue == "" && isLoading
    {
      if Trim(text) == [] || isLoading {
        return None;
      }
      var placeholder := Placeholder(stamp);
      messages := messages + Echo(text, stamp) + [placeholder];
      inputValue := "";
      isLoading := true;
      responseId := Some(placeholder.id);
    }

    /** The mount effect: with only the welcome message on screen, the
      start-up prompt is sent; it adds no user message. */
    method Mount(stamp: nat) returns (responseId: Option<string>)
      modifies this
      ensures var onlyWelcome := |old(messages)| == 1 && old(messages)[0].id == WelcomeId;
              && (!onlyWelcome ==> responseId.None? && messages == old(messages) && isLoading == old(isLoading))
              && (onlyWelcome && !old(isLoading) ==>
                    responseId == Some(NatToString(stamp + 1))
                    && messages == old(messages) + [Message(NatToString(stamp + 1), ModelRole, "", true, None)]
                    && isLoading && inputValue == "")
              && (onlyWelcome && old(isLoading) ==>
                    responseId.None? && messages == old(messages) && isLoading && inputValue == old(inputValue))
              && (!onlyWelcome ==> inputValue == old(inputValue))
    {
      if |messages| == 1 && messages[0].id == WelcomeId {
        assert Contains(InitPrompt, InitMarker) by {
          assert OccursAt(InitPrompt, InitMarker, 0);
        }
        assert Echo(InitPrompt, stamp) == [];
        assert !IsWhitespace(InitPrompt[0]);
        TrimEmptyIff(InitPrompt);
        responseId := HandleSend(InitPrompt, stamp);
      } else {
        responseId := None;
      }
    }

    /** The second half of handleSend: the reply (or the failure) fills
      every message carrying the placeholder's id, leaves all others as
      they were, and loading ends. A failure keeps the message's sources. */
    method ResolveReply(responseId: string, outcome: ReplyOutcome)
      modifies this
      ensures |messages| == |old(messages)| && !isLoading && inputValue == old(inputValue)
      ensures forall i :: 0 <= i < |messages| && old(messages)[i].id != responseId ==> messages[i] == old(messages)[i]
      ensures forall i :: 0 <= i < |messages| && old(messages)[i].id == responseId ==>
                && messages[i].id == responseId && messages[i].role == old(messages)[i].role
                && messages[i].text == ReplyText(outcome) && !messages[i].isThinking
                && (outcome.ReplyThrew? ==> messages[i].sources == old(messages)[i].sources)
                && (outcome.Reply? ==>
                      var found := if outcome.chunks.Some? then Sources(outcome.chunks.value) else [];
                      messages[i].sources == if found == [] then None else Some(found))
    {
      var text := ReplyText(outcome);
      var prev := messages;
      match outcome {
        case Reply(_, chunks) =>
          var found: seq<GroundingLink> := [];
          if chunks.Some? {
            found := ExtractSources(chunks.value);
          }
          var sources := if found == [] then None else Some(found);
          messages := seq(|prev|, i requires 0 <= i < |prev| =>
            if prev[i].id == responseId then prev[i].(text := text, isThinking := false, sources := sources) else prev[i]);
        case ReplyThrew =>
          messages := seq(|prev|, i requires 0 <= i < |prev| =>
            if prev[i].id == responseId then prev[i].(text := text, isThinking := false) else prev[i]);
      }
      isLoading := false;
    }
  }

  /** Consecutive stamps give different ids, and neither is the welcome id. */
  lemma StampsDiffer(stamp: nat)
    ensures NatToString(stamp) != NatToString(stamp + 1)
    ensures WelcomeId != NatToString(stamp + 1)
  {
    assert NatToString(stamp)[|NatToString(stamp)| - 1] == DigitChar(stamp % 10);
    assert NatToString(stamp + 1)[|NatToString(stamp + 1)| - 1] == DigitChar((stamp + 1) % 10);
    assert !IsDigit(WelcomeId[0]);
  }

  /** A send followed by its reply: the user's message stays, and the one
      placeholder it added now holds a non-empty reply and is no longer
      thinking. */

  method SendThenReply(location: string, question: string, stamp: nat, outcome: ReplyOutcome)
    returns (shown: seq<Message>)
    requires Trim(question) != [] && !Contains(question, InitMarker)
    ensures |shown| == 3
    ensures shown[1] == Message(NatToString(stamp), UserRole, question, false, None)
    ensures shown[2].id == NatToString(stamp + 1) && shown[2].text == ReplyText(outcome) && !shown[2].isThinking
  {
    var advisor := new Advisor(location);
    var id := advisor.HandleSend(question, stamp);
    var user := Message(NatToString(stamp), UserRole, question, false, None);
    var sent := advisor.messages;
    assert |sent| == 3 && sent[1] == user && sent[2].id == NatToString(stamp + 1) && sent[0].id == WelcomeId;
    StampsDiffer(stamp);
    advisor.ResolveReply(id.value, outcome);
    assert advisor.messages[1] == sent[1];
    shown := advisor.messages;
  }
}
