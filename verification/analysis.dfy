/** The photo-analysis step of the estimate function: which photos are sent
    to the vision model, how the model's reply is turned into a roof
    assessment, and the fixed assessment used when the reply cannot be
    parsed.

    The network calls, base64 encoding and `JSON.parse` are not modelled
    as code: the photo fetches are a function from URL to outcome, the
    reply of the inference service is a value, and the JSON parser is an
    uninterpreted function from text to an optional assessment. */
module RoofAnalysis {

  import opened Wrappers
  import opened Seqs
  import opened Strings

  /** The structured assessment the vision model is asked to return. A
      field the model leaves out is represented by its falsy value (`""`
      or `0.0`), which every consumer treats exactly like a missing one. */
  datatype Analysis = Analysis(
    roofType: string,
    estimatedArea: real,
    pitch: string,
    condition: string,
    issues: seq<string>,
    estimatedAge: real,
    confidenceScore: real,
    complexity: string)

  /** The assessment returned when the reply text is not valid JSON:
      mid-range categories and a low confidence score. */
  const Fallback := Analysis("unknown", 1500.0, "medium", "fair", [], 15.0, 30.0, "moderate")

  /** At most this many photos are fetched and sent. */
  const MaxPhotos := 5

  const Fence := "```"
  const JsonFence := "```json"

  // ---------------------------------------------------------------------
  // Payload extraction

  /** The text handed to the JSON parser. A reply with no code fence is
      passed on untouched (not even trimmed); otherwise the payload is the
      trimmed text after the first "```json" (preferred) or the first
      "```", up to the next "```". */
  function ExtractPayload(content: string): (payload: string)
    ensures !Contains(content, Fence) ==> payload == content
    ensures Contains(content, Fence) ==> !Contains(payload, Fence)
    ensures Contains(content, Fence) ==>
              IsTrimmed(payload)
  {
    JsonFenceHasFence(content);
    if Contains(content, JsonFence) then
      FencedSegment(Split(content, JsonFence)[1])
    else if Contains(content, Fence) then
      FencedSegment(Split(content, Fence)[1])
    else
      content
  }

  /** The trimmed text of `after` up to its first "```". */
  function FencedSegment(after: string): (payload: string)
    ensures !Contains(payload, Fence)
    ensures IsTrimmed(payload)
    ensures !Contains(after, Fence) ==> payload == Trim(after)
  {
    var raw := Split(after, Fence)[0];
    SplitPiecesFree(after, Fence);
    TrimKeepsAbsence(raw, Fence);
    Trim(raw)
  }

  /** Every "```json" starts with "```". */
  lemma {:induction false} JsonFenceHasFence(s: string)
    ensures Contains(s, JsonFence) ==> Contains(s, Fence)
    decreases |s|
  {
    assert JsonFence[..3] == Fence;
    if |s| > 0 {
      JsonFenceHasFence(s[1..]);
    }
  }

  /** A fence cannot straddle a character that is not a backquote. */
  lemma {:induction false} ConcatKeepsNoFence(p: string, q: string)
    requires !Contains(p, Fence) && !Contains(q, Fence)
    requires |q| > 0 && q[0] != '`'
    ensures !Contains(p + q, Fence)
    decreases |p|
  {
    if |p| > 0 {
      var x := p + q;
      if |p| >= 3 {
        assert x[..3] == p[..3];
      } else {
        assert x[|p|] == q[0];
      }
      assert x[1..] == p[1..] + q;
      ConcatKeepsNoFence(p[1..], q);
    } else {
      assert p + q == q;
    }
  }

  /** A text that does not start with `pat` contains it only after its
      first character. */
  lemma NoMatchAtFront(s: string, pat: string)
    requires |s| > 0 && !(pat <= s) && !Contains(s[1..], pat)
    ensures !Contains(s, pat)
  {
  }

  /** The payload on a line of its own: `"\n" + p + "\n"`. */
  function Body(p: string): string {
    "\n" + p + "\n"
  }

  /** A fence-free payload stays fence-free between its newlines, even
      followed by two backquotes. */
  lemma BodyNoFence(p: string)
    requires !Contains(p, Fence)
    ensures !Contains(Body(p), Fence)
    ensures !Contains(Body(p) + "``", Fence)
  {
    ShortNeverContains("\n", Fence);
    ShortNeverContains("``", Fence);
    assert "\n``"[1..] == "``" && "\n``"[0] != Fence[0];
    NoMatchAtFront("\n``", Fence);
    ConcatKeepsNoFence(p, "\n");
    ConcatKeepsNoFence(p, "\n``");
    assert Body(p)[1..] == p + "\n";
    assert (Body(p) + "``")[1..] == p + "\n``";
    NoMatchAtFront(Body(p), Fence);
    NoMatchAtFront(Body(p) + "``", Fence);
  }

  /** When the only fence of `a + "```"` is the final one, there is no
      "```json" in it, even followed by up to three more characters: too
      few to complete one. */
  lemma {:induction false} ClosingNoJsonFence(a: string, d: string)
    requires !Contains(a + "``", Fence)
    requires |d| <= 3
    ensures !Contains(a + Fence + d, JsonFence)
    decreases |a|
  {
    var x := a + Fence + d;
    if |a| == 0 {
      ShortNeverContains(x, JsonFence);
    } else {
      assert JsonFence[..3] == Fence;
      assert x[..3] == (a + "``")[..3];
      assert x[1..] == a[1..] + Fence + d;
      assert (a + "``")[1..] == a[1..] + "``";
      ClosingNoJsonFence(a[1..], d);
    }
  }

  /** The text up to the closing fence of a block is its body. */
  lemma ClosingHead(p: string)
    requires !Contains(p, Fence)
    ensures Split(Body(p) + Fence, Fence)[0] == Body(p)
    ensures !Contains(Body(p) + Fence, JsonFence)
  {
    BodyNoFence(p);
    assert Fence[..|Fence| - 1] == "``";
    SplitHead(Body(p), Fence, "");
    assert Body(p) + Fence + "" == Body(p) + Fence;
    ClosingNoJsonFence(Body(p), "");
  }

  /** Trimming removes exactly the two newlines around a trimmed payload. */
  lemma TrimNewlines(p: string)
    requires IsTrimmed(p)
    ensures Trim(Body(p)) == p
  {
    var w := Body(p);
    assert w[1..] == p + "\n";
    assert TrimStart(w) == TrimStart(p + "\n");
    if p == [] {
      assert TrimStart("\n") == TrimStart("\n"[1..]);
    } else {
      assert TrimStart(p + "\n") == p + "\n";
      assert (p + "\n")[..|p|] == p;
    }
  }

  /** Round trip: a payload wrapped in a "```json" block on lines of its
      own is recovered exactly, provided it has no fence of its own and no
      surrounding whitespace. */
  lemma {:induction false} JsonBlockRoundTrip(p: string)
    requires !Contains(p, Fence)
    requires IsTrimmed(p)
    ensures ExtractPayload(JsonFence + (Body(p) + Fence)) == p
  {
    var rest := Body(p) + Fence;
    var w := JsonFence + rest;
    assert w[|JsonFence|..] == rest;
    ClosingHead(p);
    assert Split(w, JsonFence)[1] == rest;
    TrimNewlines(p);
  }

  /** An opening fence followed by a newline does not start a "```json",
      and neither do its last two backquotes. */
  lemma FenceThenNewline(r: string)
    requires |r| > 0 && r[0] == '\n'
    requires !Contains(r, JsonFence)
    ensures !Contains(Fence + r, JsonFence)
  {
    var w := Fence + r;
    var w1, w2 := w[1..], w[2..];
    assert w2[1..] == r && w1[1..] == w2;
    assert JsonFence[1] == '`' && JsonFence[2] == '`' && JsonFence[3] == 'j';
    NoMatchAtFront(w2, JsonFence);
    NoMatchAtFront(w1, JsonFence);
    NoMatchAtFront(w, JsonFence);
  }

  /** A plain block holds no "```json": its opening fence is followed by a
      newline, and its body has no fence before the closing one. */
  lemma PlainBlockHasNoJsonFence(p: string)
    requires !Contains(p, Fence)
    ensures !Contains(Fence + (Body(p) + Fence), JsonFence)
  {
    ClosingHead(p);
    FenceThenNewline(Body(p) + Fence);
  }

  /** Round trip for a plain "```" block. */
  lemma {:induction false} PlainBlockRoundTrip(p: string)
    requires !Contains(p, Fence)
    requires IsTrimmed(p)
    ensures ExtractPayload(Fence + (Body(p) + Fence)) == p
  {
    var rest := Body(p) + Fence;
    var w := Fence + rest;
    assert w[|Fence|..] == rest;
    PlainBlockHasNoJsonFence(p);
    ClosingHead(p);
    BodyNoFence(p);
    assert Split(w, Fence)[1] == Body(p);
    TrimNewlines(p);
  }

  /** A text with no "```" even before two more backquotes has none of its
      own. */
  lemma NoFenceInPrefix(b: string)
    requires !Contains(b + "``", Fence)
    ensures !Contains(b, Fence)
  {
    DropLastKeepsAbsence(b + "``", Fence);
    assert (b + "``")[..|b| + 1] == b + "`";
    DropLastKeepsAbsence(b + "`", Fence);
    assert (b + "`")[..|b|] == b;
  }

  /** A pattern absent from a text occurs at no position of it. */
  lemma NoOccurrence(s: string, pat: string, i: int)
    requires !Contains(s, pat)
    ensures !OccursAt(s, pat, i)
  {
    if OccursAt(s, pat, i) {
      OccursImpliesContains(s, pat, i);
    }
  }

  /** The segment after an opening fence ends at the first "```" that
      follows: its trimmed text before that fence is the payload. */
  lemma FencedSegmentStopsAtFence(b: string, c: string)
    requires !Contains(b + "``", Fence)
    ensures FencedSegment(b + Fence + c) == Trim(b)
  {
    assert Fence[..|Fence| - 1] == "``";
    SplitHead(b, Fence, c);
  }

  /** No "```json" starts inside `b + "```"` when `b` holds no fence and
      the closing fence is followed neither by "json" nor by a backquote. */
  lemma NoJsonFenceBeforeRest(b: string, c: string)
    requires !Contains(b + "``", Fence)
    requires c == [] || c[0] != '`'
    requires !(|c| >= 4 && c[..4] == "json")
    ensures forall i :: 0 <= i < |b + Fence| ==> !OccursAt(b + Fence + c, JsonFence, i)
  {
    forall i | 0 <= i < |b + Fence|
      ensures !OccursAt(b + Fence + c, JsonFence, i)
    {
      if i < |b| {
        NoJsonFenceInside(b, c, i);
      } else {
        NoJsonFenceAtClosing(b, c, i);
      }
    }
  }

  /** A "```json" starting inside `b` would put a "```" inside `b + "``"`. */
  lemma NoJsonFenceInside(b: string, c: string, i: int)
    requires !Contains(b + "``", Fence)
    requires 0 <= i < |b|
    ensures !OccursAt(b + Fence + c, JsonFence, i)
  {
    var t := b + Fence + c;
    NoOccurrence(b + "``", Fence, i);
    assert JsonFence[..3] == Fence;
    assert (b + "``")[i..][..3] == t[i..][..3];
  }

  /** A "```json" starting at one of the three backquotes of the closing
      fence needs "json" or a backquote right after it. */
  lemma NoJsonFenceAtClosing(b: string, c: string, i: int)
    requires c == [] || c[0] != '`'
    requires !(|c| >= 4 && c[..4] == "json")
    requires |b| <= i < |b| + 3
    ensures !OccursAt(b + Fence + c, JsonFence, i)
  {
    var t := b + Fence + c;
    assert t[i..] == Fence[i - |b|..] + c;
    NoJsonFenceInTail(i - |b|, c);
  }

  /** The last `3 - k` backquotes of a fence, followed by `c`, start no
      "```json". */
  lemma NoJsonFenceInTail(k: int, c: string)
    requires c == [] || c[0] != '`'
    requires !(|c| >= 4 && c[..4] == "json")
    requires 0 <= k < 3
    ensures !(JsonFence <= Fence[k..] + c)
  {
    var r := Fence[k..] + c;
    if k == 0 {
      if |r| >= |JsonFence| {
        assert r[..7][3..7] == c[..4];
        assert JsonFence[3..7] == "json";
      } else {
        assert |r| < |JsonFence|;
      }
    } else {
      if |r| >= |JsonFence| {
        assert r[..7][3 - k] == c[0];
        assert JsonFence[3 - k] == '`';
      } else {
        assert |r| < |JsonFence|;
      }
    }
  }

  /** The piece after the first "```json" is the first piece of what
      follows it. */
  lemma AfterJsonFence(a: string, t: string)
    requires !Contains(a + JsonFence[..|JsonFence| - 1], JsonFence)
    ensures Contains(a + JsonFence + t, JsonFence)
    ensures ExtractPayload(a + JsonFence + t) == FencedSegment(Split(t, JsonFence)[0])
  {
    var content := a + JsonFence + t;
    assert content[|a|..] == JsonFence + t;
    OccursImpliesContains(content, JsonFence, |a|);
    SplitHead(a, JsonFence, t);
  }

  /** The "```json" rule in general: whatever precedes the first "```json"
      and follows the closing "```", the payload is the trimmed text
      between them. The closing fence must not be followed by a backquote,
      which could start a new "```json" inside it. */
  lemma JsonBlockPayload(a: string, b: string, c: string)
    requires !Contains(a + JsonFence[..|JsonFence| - 1], JsonFence)
    requires !Contains(b + "``", Fence)
    requires c == [] || c[0] != '`'
    ensures ExtractPayload(a + JsonFence + b + Fence + c) == Trim(b)
  {
    var t := b + Fence + c;
    assert a + JsonFence + b + Fence + c == a + JsonFence + t;
    AfterJsonFence(a, t);
    if |c| >= 4 && c[..4] == "json" {
      JsonRightAfterClosing(b, c);
    } else {
      NoJsonFenceBeforeRest(b, c);
      SplitFirstPiece(b + Fence, c, JsonFence);
      FencedSegmentStopsAtFence(b, Split(c, JsonFence)[0]);
    }
  }

  /** A second "```json" right at the closing fence ends the piece there. */
  lemma JsonRightAfterClosing(b: string, c: string)
    requires !Contains(b + "``", Fence)
    requires |c| >= 4 && c[..4] == "json"
    ensures FencedSegment(Split(b + Fence + c, JsonFence)[0]) == Trim(b)
  {
    var rest := c[4..];
    assert c == "json" + rest;
    assert JsonFence == Fence + "json";
    assert b + Fence + c == b + JsonFence + rest;
    assert JsonFence[..|JsonFence| - 1] == Fence + "jso";
    assert b + JsonFence[..|JsonFence| - 1] == b + Fence + "jso";
    ClosingNoJsonFence(b, "jso");
    SplitHead(b, JsonFence, rest);
    NoFenceInPrefix(b);
  }

  /** In a reply with no "```json", the piece after the first "```" is
      the first piece of what follows it. */
  lemma AfterPlainFence(a: string, t: string)
    requires !Contains(a + "``", Fence)
    requires !Contains(a + Fence + t, JsonFence)
    ensures Contains(a + Fence + t, Fence)
    ensures ExtractPayload(a + Fence + t) == FencedSegment(Split(t, Fence)[0])
  {
    var content := a + Fence + t;
    assert content[|a|..] == Fence + t;
    OccursImpliesContains(content, Fence, |a|);
    assert Fence[..|Fence| - 1] == "``";
    SplitHead(a, Fence, t);
  }

  /** The plain "```" rule in general, for a reply with no "```json": the
      payload is the trimmed text between the first two fences. */
  lemma PlainBlockPayload(a: string, b: string, c: string)
    requires !Contains(a + "``", Fence)
    requires !Contains(b + "``", Fence)
    requires !Contains(a + Fence + b + Fence + c, JsonFence)
    ensures ExtractPayload(a + Fence + b + Fence + c) == Trim(b)
  {
    var t := b + Fence + c;
    assert a + Fence + b + Fence + c == a + Fence + t;
    AfterPlainFence(a, t);
    FencedSegmentOfClosed(b, c);
  }

  /** The first piece of `b + "```" + c` is `b`, whose segment is `b`
      trimmed. */
  lemma FencedSegmentOfClosed(b: string, c: string)
    requires !Contains(b + "``", Fence)
    ensures FencedSegment(Split(b + Fence + c, Fence)[0]) == Trim(b)
  {
    assert Fence[..|Fence| - 1] == "``";
    SplitHead(b, Fence, c);
    NoFenceInPrefix(b);
  }

  /** "`" followed by the first six characters of "```json" holds no
      "```json". */
  lemma BacktickThenOpeningHasNoJsonFence()
    ensures !Contains("`" + JsonFence[..|JsonFence| - 1], JsonFence)
  {
    var opening := JsonFence[..|JsonFence| - 1];
    ShortNeverContains(opening, JsonFence);
    var front := "`" + opening;
    assert front[1..] == opening;
    assert front[3] != JsonFence[3];
    NoMatchAtFront(front, JsonFence);
  }

  /** The segment of the example below: a lone backquote, cut at the
      "```json" that starts one character into the closing fence. */
  lemma OverlapSegment()
    ensures FencedSegment(Split("`" + JsonFence + (" x" + Fence), JsonFence)[0]) == "`"
  {
    BacktickThenOpeningHasNoJsonFence();
    SplitHead("`", JsonFence, " x" + Fence);
    ShortNeverContains("`", Fence);
    TrimOfTrimmed("`");
  }

  /** A closing fence followed by a backquote can begin a new "```json"
      one character later, which cuts the payload short: here the payload
      is a lone backquote instead of the empty text between the fences. */
  lemma OverlappingFenceExample()
    ensures ExtractPayload(JsonFence + "`" + JsonFence + " x" + Fence) == "`"
  {
    var opening := JsonFence[..|JsonFence| - 1];
    var t := "`" + JsonFence + (" x" + Fence);
    assert JsonFence + "`" + JsonFence + " x" + Fence == "" + JsonFence + t;
    ShortNeverContains(opening, JsonFence);
    assert "" + opening == opening;
    AfterJsonFence("", t);
    OverlapSegment();
  }

  // ---------------------------------------------------------------------
  // The batch of images sent to the model

  /** Outcome of fetching one photo: failed (logged and dropped) or
      fetched with the response's `content-type` header (`""` when absent). */
  datatype PhotoFetch = FetchFailed | Fetched(contentType: string)

  /** One image of the batch: the photo it came from and its MIME type. */
  datatype ImagePart = ImagePart(sourceUrl: string, mimeType: string)

  /** The MIME type declared for an image; JPEG when the header is missing. */
  function MimeType(contentType: string): (mime: string)
    ensures contentType != "" ==> mime == contentType
    ensures contentType == "" ==> mime == "image/jpeg"
  {
    if contentType != "" then contentType else "image/jpeg"
  }

  /** The successfully fetched photos among `urls`, in order. */
  function CollectImages(urls: seq<string>, fetch: string -> PhotoFetch): (parts: seq<ImagePart>)
    ensures |parts| <= |urls|
    ensures forall k :: 0 <= k < |parts| ==>
              parts[k].sourceUrl in urls
              && fetch(parts[k].sourceUrl).Fetched?
              && parts[k].mimeType == MimeType(fetch(parts[k].sourceUrl).contentType)
    ensures |parts| == |urls| <==> forall k :: 0 <= k < |urls| ==> fetch(urls[k]).Fetched?
    ensures |parts| == |urls| ==> forall k :: 0 <= k < |urls| ==> parts[k].sourceUrl == urls[k]
    decreases |urls|
  {
    if |urls| == 0 then []
    else
      var tail := CollectImages(urls[1..], fetch);
      assert forall u :: u in urls[1..] ==> u in urls;
      match fetch(urls[0])
      case FetchFailed =>
        assert |tail| < |urls|;
        tail
      case Fetched(contentType) =>
        var parts := [ImagePart(urls[0], MimeType(contentType))] + tail;
        assert forall k :: 1 <= k < |parts| ==> parts[k] == tail[k - 1];
        parts
  }

  /** The photo URLs the parts were made from, in order. */
  function Sources(parts: seq<ImagePart>): (urls: seq<string>)
    ensures |urls| == |parts|
    ensures forall k :: 0 <= k < |parts| ==> urls[k] == parts[k].sourceUrl
  {
    seq(|parts|, k requires 0 <= k < |parts| => parts[k].sourceUrl)
  }

  /** The test that keeps a photo URL: its fetch succeeded. */
  function Succeeded(fetch: string -> PhotoFetch): string -> bool {
    (u: string) => fetch(u).Fetched?
  }

  lemma SourcesCons(part: ImagePart, parts: seq<ImagePart>)
    ensures Sources([part] + parts) == [part.sourceUrl] + Sources(parts)
  {
    var l := Sources([part] + parts);
    var r := [part.sourceUrl] + Sources(parts);
    assert forall k :: 0 <= k < |l| ==> l[k] == r[k];
  }

  /** Every photo whose fetch succeeded is sent, in the order of the URLs:
      the failed fetches are the only ones dropped. */
  lemma {:induction false} CollectImagesKeepsFetched(urls: seq<string>, fetch: string -> PhotoFetch)
    ensures Sources(CollectImages(urls, fetch)) == Filter(urls, Succeeded(fetch))
    decreases |urls|
  {
    if |urls| > 0 {
      CollectImagesKeepsFetched(urls[1..], fetch);
      var tail := CollectImages(urls[1..], fetch);
      match fetch(urls[0])
      case FetchFailed =>
        assert CollectImages(urls, fetch) == tail;
      case Fetched(contentType) =>
        var part := ImagePart(urls[0], MimeType(contentType));
        assert CollectImages(urls, fetch) == [part] + tail;
        SourcesCons(part, tail);
    }
  }

  /** The images sent with the request: only the first five photos are
      considered, and those whose fetch failed are dropped. */
  function ImageBatch(photoUrls: seq<string>, fetch: string -> PhotoFetch): (parts: seq<ImagePart>)
    ensures |parts| <= MaxPhotos && |parts| <= |photoUrls|
    ensures forall k :: 0 <= k < |parts| ==>
              exists i :: 0 <= i < MaxPhotos && i < |photoUrls| && photoUrls[i] == parts[k].sourceUrl
    ensures Sources(parts)
              == Filter(photoUrls[..if |photoUrls| <= MaxPhotos then |photoUrls| else MaxPhotos],
                        Succeeded(fetch))
    ensures forall k :: 0 <= k < |parts| ==>
              fetch(parts[k].sourceUrl).Fetched?
              && parts[k].mimeType == MimeType(fetch(parts[k].sourceUrl).contentType)
  {
    var considered := if |photoUrls| <= MaxPhotos then photoUrls else photoUrls[..MaxPhotos];
    assert considered == photoUrls[..if |photoUrls| <= MaxPhotos then |photoUrls| else MaxPhotos];
    var parts := CollectImages(considered, fetch);
    CollectImagesKeepsFetched(considered, fetch);
    assert forall k :: 0 <= k < |parts| ==> parts[k].sourceUrl in considered;
    parts
  }

  // ---------------------------------------------------------------------
  // The model's reply

  /** What came back from the inference service: the request itself threw
      (network failure, unreadable body), a non-OK HTTP status, or a body
      whose first choice carries `content` (`None` when the path is
      missing). */
  datatype AiReply = Rejected | NotOk(status: int) | Replied(content: Option<string>)

  /** Why the analysis threw instead of returning an assessment. */
  datatype AiFailure = RequestFailed | ApiError(status: int) | NoContent

  /** The assessment `analyzeRoofPhotos` returns, or the error it throws.
      `parse` is `JSON.parse` restricted to assessments: `None` when it
      throws. */
  function InterpretReply(reply: AiReply, parse: string -> Option<Analysis>): (r: Result<Analysis, AiFailure>)
    ensures r.Failure? <==> (reply.Rejected? || reply.NotOk? || reply.content in {None, Some("")})
    ensures reply.NotOk? ==> r == Failure(ApiError(reply.status))
    ensures r.Success? ==> parse(ExtractPayload(reply.content.value)) in {None, Some(r.value)}
    ensures r.Success? && parse(ExtractPayload(reply.content.value)).None? ==> r.value == Fallback
  {
    match reply
    case Rejected => Failure(RequestFailed)
    case NotOk(status) => Failure(ApiError(status))
    case Replied(content) =>
      if content.None? || content.value == "" then Failure(NoContent)
      else
        match parse(ExtractPayload(content.value))
        case Some(a) => Success(a)
        case None => Success(Fallback)
  }

  /** One run of `analyzeRoofPhotos`: the images it sent and its outcome. */
  datatype AnalysisCall = AnalysisCall(images: seq<ImagePart>, outcome: Result<Analysis, AiFailure>)

  function AnalyzeRoofPhotos(
    photoUrls: seq<string>,
    fetch: string -> PhotoFetch,
    reply: AiReply,
    parse: string -> Option<Analysis>): AnalysisCall
  {
    AnalysisCall(ImageBatch(photoUrls, fetch), InterpretReply(reply, parse))
  }

  /** A reply whose text cannot be parsed is a recovered failure: the
      fallback comes back, with a confidence below the unverified default
      of 50. */
  lemma UnparsableReplyGivesFallback(content: string, parse: string -> Option<Analysis>)
    requires content != ""
    requires parse(ExtractPayload(content)).None?
    ensures InterpretReply(Replied(Some(content)), parse) == Success(Fallback)
    ensures Fallback.confidenceScore < 50.0
  {
  }
}
