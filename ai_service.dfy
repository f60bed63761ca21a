/** The request and response transformations of the AI service: sanitising the
    chat history before it is sent, converting parts to the wire format, building
    the request contents, separating thought summaries from answer text, splicing
    citations into the answer, the switch to the search model, and the text-only
    history used for title generation. The remote API is a function parameter. */
module AIService {
  import opened Js

  datatype InlineData = InlineData(data: string, mimeType: string)

  /** A content part. Each field is absent unless the part has it; `thought` is
      true only for parts flagged as thought summaries. */
  datatype Part = Part(text: Option<string>, thought: bool, inlineData: Option<InlineData>,
                       thoughtSignature: Option<string>)

  function TextPart(t: string): Part {
    Part(Some(t), false, None, None)
  }

  function InlinePart(d: InlineData): Part {
    Part(None, false, Some(d), None)
  }

  /** A turn as the chat history stores it; `allParts` keeps thought signatures. */
  datatype Entry = Entry(role: string, parts: seq<Part>, allParts: Option<seq<Part>>)

  /** A turn in the request format: a role and its parts, nothing else. */
  datatype Content = Content(role: string, parts: seq<Part>)

  predicate HasParts(c: Content) {
    |c.parts| > 0
  }

  // ---------------------------------------------------------------------------
  // cleanHistoryForAI

  /** A part survives sanitising when it has text, inline data or a thought signature. */
  predicate KeepsPart(p: Part) {
    Truthy(p.text) || p.inlineData.Some? || Truthy(p.thoughtSignature)
  }

  /** `entry.allParts || entry.parts`: an `allParts` array is used whenever it is
      present, even when it is empty, since every array is truthy. */
  function SourceParts(e: Entry): seq<Part> {
    if e.allParts.Some? then e.allParts.value else e.parts
  }

  function CleanEntry(e: Entry): (c: Content)
    ensures c.role == e.role
    ensures forall p :: p in c.parts <==> p in SourceParts(e) && KeepsPart(p)
    ensures forall p :: p in SourceParts(e) ==>
      multiset(c.parts)[p] == if KeepsPart(p) then multiset(SourceParts(e))[p] else 0
  {
    FilterMultiset(SourceParts(e), KeepsPart);
    Content(e.role, Filter(SourceParts(e), KeepsPart))
  }

  /** The history as it is sent: every turn with its sanitised parts, and the turns
      left without parts dropped. */
  function CleanHistory(h: seq<Entry>): (r: seq<Content>)
    ensures |r| <= |h|
    ensures forall c :: c in r ==> HasParts(c) && forall p :: p in c.parts ==> KeepsPart(p)
    ensures forall i :: 0 <= i < |h| && HasParts(CleanEntry(h[i])) ==> CleanEntry(h[i]) in r
    ensures IsSubseq(r, Map(h, CleanEntry))
  {
    var cleaned := Map(h, CleanEntry);
    assert forall i :: 0 <= i < |h| ==> cleaned[i] in cleaned;
    FilterIsSubseq(cleaned, HasParts);
    Filter(cleaned, HasParts)
  }

  /** A sanitised turn that still has parts is sent as often as it occurs in the
      history, and one left without parts not at all. */
  lemma CleanHistoryCounts(h: seq<Entry>)
    ensures forall c :: c in Map(h, CleanEntry) ==>
      multiset(CleanHistory(h))[c] == if HasParts(c) then multiset(Map(h, CleanEntry))[c] else 0
  {
    FilterMultiset(Map(h, CleanEntry), HasParts);
  }

  /** Sanitising keeps each surviving turn's parts in their original order. */
  lemma CleanEntryKeepsOrder(e: Entry)
    ensures IsSubseq(CleanEntry(e).parts, SourceParts(e))
  {
    FilterIsSubseq(SourceParts(e), KeepsPart);
  }

  /** An entry whose `allParts` is present but empty is dropped even if its `parts`
      has text. */
  lemma EmptyAllPartsDropsEntry(role: string, parts: seq<Part>)
    ensures CleanHistory([Entry(role, parts, Some([]))]) == []
  {
    var cleaned := Map([Entry(role, parts, Some([]))], CleanEntry);
    assert cleaned == [Content(role, [])];
    assert Filter(cleaned, HasParts) == Filter([], HasParts) + [];
  }

  // ---------------------------------------------------------------------------
  // convertParts and the request contents

  /** `convertParts` on one part: a text part becomes `{text}`, an inline-data part
      `{inlineData}`, and any other part passes through unchanged. */
  function ConvertPart(p: Part): (r: Part)
    ensures Truthy(p.text) ==> r == TextPart(p.text.value)
    ensures !Truthy(p.text) && p.inlineData.Some? ==> r == InlinePart(p.inlineData.value)
    ensures !Truthy(p.text) && p.inlineData.None? ==> r == p
  {
    if Truthy(p.text) then TextPart(p.text.value)
    else if p.inlineData.Some? then InlinePart(p.inlineData.value)
    else p
  }

  function ConvertContent(c: Content): Content {
    Content(c.role, Map(c.parts, ConvertPart))
  }

  /** The request contents: the sanitised history, each part converted, followed by
      one user turn holding the converted new parts. */
  function BuildContents(history: seq<Entry>, messageParts: seq<Part>): (r: seq<Content>)
    ensures |r| == |CleanHistory(history)| + 1
    ensures r[|r| - 1] == Content("user", Map(messageParts, ConvertPart))
    ensures forall k :: 0 <= k < |r| - 1 ==>
      r[k].role == CleanHistory(history)[k].role && HasParts(r[k])
      && |r[k].parts| == |CleanHistory(history)[k].parts|
    ensures forall k, j :: 0 <= k < |r| - 1 && 0 <= j < |r[k].parts| ==>
      r[k].parts[j] == ConvertPart(CleanHistory(history)[k].parts[j])
  {
    var clean := CleanHistory(history);
    assert forall k :: 0 <= k < |clean| ==> clean[k] in clean;
    Map(clean, ConvertContent) + [Content("user", Map(messageParts, ConvertPart))]
  }

  /** A part the wire format can carry: non-empty text alone, inline data alone, or a
      part without text or inline data that holds a thought signature. */
  predicate IsWirePart(q: Part) {
    (Truthy(q.text) && q == TextPart(q.text.value))
    || (q.inlineData.Some? && q == InlinePart(q.inlineData.value))
    || (!Truthy(q.text) && q.inlineData.None? && Truthy(q.thoughtSignature))
  }

  /** Every history part that is sent is a wire part: the sanitising filter and the
      conversion together leave nothing else. */
  lemma SentHistoryPartsAreWireParts(history: seq<Entry>, messageParts: seq<Part>)
    ensures var r := BuildContents(history, messageParts);
      forall k, j :: 0 <= k < |r| - 1 && 0 <= j < |r[k].parts| ==> IsWirePart(r[k].parts[j])
  {
    var r := BuildContents(history, messageParts);
    var clean := CleanHistory(history);
    forall k, j | 0 <= k < |r| - 1 && 0 <= j < |r[k].parts| ensures IsWirePart(r[k].parts[j]) {
      var p := clean[k].parts[j];
      assert clean[k] in clean && p in clean[k].parts;
      assert KeepsPart(p);
    }
  }

  // ---------------------------------------------------------------------------
  // Responses

  datatype CandidateContent = CandidateContent(parts: Option<seq<Part>>)
  datatype Web = Web(uri: Option<string>, title: Option<string>)
  datatype Chunk = Chunk(web: Option<Web>)
  datatype Segment = Segment(endIndex: Option<int>)
  datatype Support = Support(segment: Option<Segment>, chunkIndices: Option<seq<int>>)
  datatype Grounding = Grounding(supports: Option<seq<Support>>, chunks: Option<seq<Chunk>>)
  datatype Candidate = Candidate(content: Option<CandidateContent>, grounding: Option<Grounding>)
  datatype FunctionCall = FunctionCall(name: string)
  datatype Response = Response(candidates: Option<seq<Candidate>>, functionCalls: Option<seq<FunctionCall>>)

  /** The parts of the first candidate's content, or none when there is no such content. */
  function CandidateParts(r: Response): seq<Part> {
    if r.candidates.Some? && |r.candidates.value| > 0 && r.candidates.value[0].content.Some?
    then r.candidates.value[0].content.value.parts.GetOr([])
    else []
  }

  /** `candidates?.[0]?.groundingMetadata`. */
  function GroundingOf(r: Response): Option<Grounding> {
    if r.candidates.Some? && |r.candidates.value| > 0 then r.candidates.value[0].grounding else None
  }

  predicate IsThought(p: Part) {
    Truthy(p.text) && p.thought
  }

  predicate IsAnswer(p: Part) {
    Truthy(p.text) && !p.thought
  }

  function TextOf(p: Part): string {
    p.text.GetOr("")
  }

  /** `extractThoughtsAndText`: every part is kept for the history, the texts of
      thought parts are listed in order, and the other texts are concatenated. */
  method ExtractThoughtsAndText(response: Response) returns (thoughts: seq<string>, text: string, allParts: seq<Part>)
    ensures allParts == CandidateParts(response)
    ensures thoughts == Map(Filter(allParts, IsThought), TextOf)
    ensures text == Concat(Map(Filter(allParts, IsAnswer), TextOf))
  {
    thoughts, text, allParts := [], "", [];
    if response.candidates.Some? && |response.candidates.value| > 0
      && response.candidates.value[0].content.Some?
    {
      var parts := response.candidates.value[0].content.value.parts.GetOr([]);
      for i := 0 to |parts|
        invariant allParts == parts[..i]
        invariant thoughts == Map(Filter(allParts, IsThought), TextOf)
        invariant text == Concat(Map(Filter(allParts, IsAnswer), TextOf))
      {
        var part := parts[i];
        assert parts[..i + 1] == allParts + [part];
        FilterSnoc(allParts, part, IsThought);
        FilterSnoc(allParts, part, IsAnswer);
        ghost var thoughtParts, answerParts := Filter(allParts, IsThought), Filter(allParts, IsAnswer);
        allParts := allParts + [part];
        if Truthy(part.text) {
          if part.thought {
            MapSnoc(thoughtParts, part, TextOf);
            assert Filter(allParts, IsAnswer) == answerParts;
            thoughts := thoughts + [part.text.value];
          } else {
            MapSnoc(answerParts, part, TextOf);
            ConcatAppend(Map(answerParts, TextOf), [TextOf(part)]);
            assert [TextOf(part)][..0] == [];
            assert Filter(allParts, IsThought) == thoughtParts;
            text := text + part.text.value;
          }
        } else {
          assert Filter(allParts, IsThought) == thoughtParts;
          assert Filter(allParts, IsAnswer) == answerParts;
        }
      }
      assert allParts == parts;
    }
  }

  /** No text ends up in both outputs: a text part is either a thought or an answer. */
  lemma ThoughtsAndAnswersPartition(ps: seq<Part>)
    ensures |Filter(ps, IsThought)| + |Filter(ps, IsAnswer)| == |Filter(ps, HasText)|
    decreases |ps|
  {
    if ps != [] {
      ThoughtsAndAnswersPartition(ps[..|ps| - 1]);
    }
  }

  // ---------------------------------------------------------------------------
  // Citations

  /** `support.segment?.endIndex`. */
  function EndIndex(s: Support): Option<int> {
    if s.segment.Some? then s.segment.value.endIndex else None
  }

  /** The sort key: `segment?.endIndex ?? 0`. */
  function EndKey(s: Support): int {
    EndIndex(s).GetOr(0)
  }

  ghost predicate SortedDesc(s: seq<Support>) {
    forall i, j :: 0 <= i < j < |s| ==> EndKey(s[i]) >= EndKey(s[j])
  }

  lemma PrependSorted(y: Support, s: seq<Support>)
    requires SortedDesc(s)
    requires forall k :: 0 <= k < |s| ==> EndKey(s[k]) <= EndKey(y)
    ensures SortedDesc([y] + s)
  {
    forall i, j | 0 <= i < j < |[y] + s| ensures EndKey(([y] + s)[i]) >= EndKey(([y] + s)[j]) {
      if i > 0 {
        assert ([y] + s)[i] == s[i - 1];
      }
    }
  }

  function InsertByEnd(x: Support, s: seq<Support>): (r: seq<Support>)
    requires SortedDesc(s)
    ensures SortedDesc(r)
    ensures multiset(r) == multiset(s) + multiset{x}
    decreases |s|
  {
    if s == [] then [x]
    else if EndKey(s[0]) <= EndKey(x) then
      PrependSorted(x, s);
      [x] + s
    else
      var rest := InsertByEnd(x, s[1..]);
      assert s == [s[0]] + s[1..];
      assert forall k :: 0 <= k < |rest| ==> EndKey(rest[k]) <= EndKey(s[0]) by {
        forall k | 0 <= k < |rest| ensures EndKey(rest[k]) <= EndKey(s[0]) {
          assert rest[k] in multiset(rest);
          if rest[k] != x {
            assert rest[k] in multiset(s[1..]);
          }
        }
      }
      PrependSorted(s[0], rest);
      [s[0]] + rest
  }

  /** `[...supports].sort((a, b) => key(b) - key(a))`: an insertion sort that keeps
      supports with equal keys in their input order, as the stable array sort does. */
  function SortByEndDesc(s: seq<Support>): (r: seq<Support>)
    ensures SortedDesc(r)
    ensures multiset(r) == multiset(s)
    decreases |s|
  {
    if s == [] then []
    else
      assert s == [s[0]] + s[1..];
      InsertByEnd(s[0], SortByEndDesc(s[1..]))
  }

  /** A support takes part when it has an end index and at least one chunk index. */
  predicate Eligible(s: Support) {
    EndIndex(s).Some? && s.chunkIndices.Some? && |s.chunkIndices.value| > 0
  }

  lemma FilterSortedDesc(s: seq<Support>, f: Support -> bool)
    requires SortedDesc(s)
    ensures SortedDesc(Filter(s, f))
    decreases |s|
  {
    if s != [] {
      var init, last := s[..|s| - 1], s[|s| - 1];
      FilterSortedDesc(init, f);
      assert forall y :: y in init ==> EndKey(y) >= EndKey(last);
    }
  }

  /** A text edit: insert the string at the position that `slice` reads from `at`. */
  datatype Edit = Edit(at: int, insert: string)

  /** The text after applying the edits one after the other. */
  function SpliceAll(t: string, edits: seq<Edit>): (r: string)
    ensures |r| >= |t|
    decreases |edits|
  {
    if edits == [] then t
    else
      var last := edits[|edits| - 1];
      SpliceAt(SpliceAll(t, edits[..|edits| - 1]), last.at, last.insert)
  }

  lemma SpliceAllSnoc(t: string, edits: seq<Edit>, e: Edit)
    ensures SpliceAll(t, edits + [e]) == SpliceAt(SpliceAll(t, edits), e.at, e.insert)
  {
    assert (edits + [e])[..|edits|] == edits;
  }

  /** Whatever the edits, the original characters survive in order. */
  lemma {:induction false} SpliceAllKeepsOriginal(t: string, edits: seq<Edit>)
    ensures IsSubseq(t, SpliceAll(t, edits))
    decreases |edits|
  {
    if edits == [] {
      SubseqRefl(t);
    } else {
      var before := SpliceAll(t, edits[..|edits| - 1]);
      var last := edits[|edits| - 1];
      SpliceAllKeepsOriginal(t, edits[..|edits| - 1]);
      SubseqInsert(t, before, SliceIndex(last.at, |before|), last.insert);
    }
  }

  ghost predicate InBounds(edits: seq<Edit>, len: nat) {
    forall j :: 0 <= j < |edits| ==> 0 <= edits[j].at <= len
  }

  ghost predicate NonIncreasing(edits: seq<Edit>) {
    forall i, j :: 0 <= i < j < |edits| ==> edits[i].at >= edits[j].at
  }

  lemma {:induction false} SpliceAllKeepsPrefix(t: string, edits: seq<Edit>, k: nat)
    requires InBounds(edits, |t|) && k <= |t|
    requires forall j :: 0 <= j < |edits| ==> k <= edits[j].at
    ensures SpliceAll(t, edits)[..k] == t[..k]
    decreases |edits|
  {
    if edits != [] {
      var init := edits[..|edits| - 1];
      var last := edits[|edits| - 1];
      SpliceAllKeepsPrefix(t, init, k);
      var before := SpliceAll(t, init);
      assert SliceIndex(last.at, |before|) == last.at;
      assert SpliceAll(t, edits)[..k] == before[..last.at][..k];
    }
  }

  /** Edit `j` lands right after the unchanged original prefix of length `at`. */
  ghost predicate LandsAfterOriginalPrefix(t: string, edits: seq<Edit>, j: nat)
    requires j < |edits|
  {
    var before := SpliceAll(t, edits[..j]);
    var at := edits[j].at;
    0 <= at <= |t| && before[..at] == t[..at]
    && SpliceAll(t, edits[..j + 1]) == t[..at] + edits[j].insert + before[at..]
  }

  /** Applied from the largest position down, each edit lands right after the
      unchanged original prefix of length `at`, so earlier insertions never shift
      the place of a later one. */
  lemma SpliceAllLandsAfterOriginalPrefix(t: string, edits: seq<Edit>)
    requires InBounds(edits, |t|) && NonIncreasing(edits)
    ensures forall j :: 0 <= j < |edits| ==> LandsAfterOriginalPrefix(t, edits, j)
  {
    forall j | 0 <= j < |edits|
      ensures LandsAfterOriginalPrefix(t, edits, j)
    {
      var pre := edits[..j];
      var e := edits[j];
      assert InBounds(pre, |t|);
      SpliceAllKeepsPrefix(t, pre, e.at);
      var before := SpliceAll(t, pre);
      assert edits[..j + 1][..j] == pre;
      assert SliceIndex(e.at, |before|) == e.at;
      calc {
        SpliceAll(t, edits[..j + 1]);
        SpliceAt(before, e.at, e.insert);
        before[..e.at] + e.insert + before[e.at..];
        t[..e.at] + e.insert + before[e.at..];
      }
    }
  }

  /** `chunks[i]?.web`. */
  function WebOf(chunks: seq<Chunk>, i: int): Option<Web> {
    if 0 <= i < |chunks| then chunks[i].web else None
  }

  function UriOf(chunks: seq<Chunk>, i: int): Option<string> {
    if WebOf(chunks, i).Some? then WebOf(chunks, i).value.uri else None
  }

  function TitleOf(chunks: seq<Chunk>, i: int): Option<string> {
    if WebOf(chunks, i).Some? then WebOf(chunks, i).value.title else None
  }

  function FaviconUrl(domain: string): string {
    "https://www.google.com/s2/favicons?domain=" + domain + "&sz=16"
  }

  // --- addCitations

  /** The markdown link for chunk `i`, when it has a URI. The domain shown is the
      chunk title when that contains a dot, else the URI's host name. */
  function LinkFor(chunks: seq<Chunk>, hostname: string -> string, i: int): Option<string> {
    var uri := UriOf(chunks, i);
    var title := TitleOf(chunks, i);
    if Truthy(uri) then
      var domain := if Truthy(title) && Includes(title.value, ".") then title.value else hostname(uri.value);
      Some("![" + domain + "](" + FaviconUrl(domain) + ") [" + NatToString(i + 1) + "](" + uri.value + ")")
    else None
  }

  function LinkForIn(chunks: seq<Chunk>, hostname: string -> string): int -> Option<string> {
    i => LinkFor(chunks, hostname, i)
  }

  predicate IsPresent(o: Option<string>) {
    o.Some?
  }

  function ValueOf(o: Option<string>): string {
    o.GetOr("")
  }

  /** The citation links of one support, in the order of its chunk indices. */
  function LinksOf(s: Support, chunks: seq<Chunk>, hostname: string -> string): seq<string> {
    Map(Filter(Map(s.chunkIndices.GetOr([]), LinkForIn(chunks, hostname)), IsPresent), ValueOf)
  }

  function HasLinksIn(chunks: seq<Chunk>, hostname: string -> string): Support -> bool {
    s => Eligible(s) && |LinksOf(s, chunks, hostname)| > 0
  }

  /** One edit per linked support: a space and the comma-separated links after its end index. */
  function LinkEdits(linked: seq<Support>, chunks: seq<Chunk>, hostname: string -> string): (r: seq<Edit>)
    ensures |r| == |linked|
    ensures forall j :: 0 <= j < |linked| ==>
      r[j] == Edit(EndKey(linked[j]), " " + Join(LinksOf(linked[j], chunks, hostname), ", "))
  {
    seq(|linked|, j requires 0 <= j < |linked| =>
      Edit(EndKey(linked[j]), " " + Join(LinksOf(linked[j], chunks, hostname), ", ")))
  }

  lemma LinkEditsSnoc(linked: seq<Support>, s: Support, chunks: seq<Chunk>, hostname: string -> string)
    ensures LinkEdits(linked + [s], chunks, hostname)
         == LinkEdits(linked, chunks, hostname) + [Edit(EndKey(s), " " + Join(LinksOf(s, chunks, hostname), ", "))]
  {
  }

  /** The loop of `addCitations` over the supports in the order given. */
  method SpliceLinks(text0: string, sorted: seq<Support>, chunks: seq<Chunk>, hostname: string -> string)
    returns (text: string)
    ensures text == SpliceAll(text0, LinkEdits(Filter(sorted, HasLinksIn(chunks, hostname)), chunks, hostname))
  {
    text := text0;
    ghost var keep := HasLinksIn(chunks, hostname);
    ghost var linked: seq<Support> := [];
    for i := 0 to |sorted|
      invariant linked == Filter(sorted[..i], keep)
      invariant text == SpliceAll(text0, LinkEdits(linked, chunks, hostname))
    {
      var support := sorted[i];
      assert sorted[..i + 1] == sorted[..i] + [support];
      FilterSnoc(sorted[..i], support, keep);
      var endIndex := EndIndex(support);
      if endIndex.None? || support.chunkIndices.None? || |support.chunkIndices.value| == 0 {
        assert Filter(sorted[..i + 1], keep) == linked;
        continue;
      }
      var citationLinks := LinksOf(support, chunks, hostname);
      if |citationLinks| > 0 {
        LinkEditsSnoc(linked, support, chunks, hostname);
        SpliceAllSnoc(text0, LinkEdits(linked, chunks, hostname), Edit(endIndex.value, " " + Join(citationLinks, ", ")));
        text := SpliceAt(text, endIndex.value, " " + Join(citationLinks, ", "));
        linked := linked + [support];
      } else {
        assert Filter(sorted[..i + 1], keep) == linked;
      }
    }
    assert sorted[..|sorted|] == sorted;
  }

  /** `addCitations`: without supports or chunks the text is returned unchanged;
      otherwise the supports are taken in descending end-index order, skipping those
      without an end index, without chunk indices or without any chunk URI, and each
      remaining one gets its links after its end index. */
  method AddCitations(text0: string, grounding: Option<Grounding>, hostname: string -> string)
    returns (text: string)
    ensures grounding.None? || grounding.value.supports.None? || grounding.value.chunks.None? ==> text == text0
    ensures grounding.Some? && grounding.value.supports.Some? && grounding.value.chunks.Some? ==>
      var chunks := grounding.value.chunks.value;
      text == SpliceAll(text0, LinkEdits(Filter(SortByEndDesc(grounding.value.supports.value),
                                                HasLinksIn(chunks, hostname)), chunks, hostname))
  {
    text := text0;
    if grounding.None? || grounding.value.supports.None? || grounding.value.chunks.None? {
      return;
    }
    var sorted := SortByEndDesc(grounding.value.supports.value);
    text := SpliceLinks(text0, sorted, grounding.value.chunks.value, hostname);
  }

  // --- the citation-marker loop of generateResponse

  datatype Source = Source(title: Option<string>, uri: Option<string>, faviconUrl: Option<string>)

  datatype Citation = Citation(id: nat, sources: seq<Source>)

  function SourceAt(chunks: seq<Chunk>): int -> Source {
    i => var title := TitleOf(chunks, i);
         Source(title, UriOf(chunks, i), if Truthy(title) then Some(FaviconUrl(title.value)) else None)
  }

  predicate HasUri(s: Source) {
    Truthy(s.uri)
  }

  /** The sources of one support: one per chunk index, kept when it has a URI. */
  function SourcesOf(s: Support, chunks: seq<Chunk>): (r: seq<Source>)
    ensures forall src :: src in r ==> HasUri(src)
  {
    Filter(Map(s.chunkIndices.GetOr([]), SourceAt(chunks)), HasUri)
  }

  function IsCitedIn(chunks: seq<Chunk>): Support -> bool {
    s => Eligible(s) && |SourcesOf(s, chunks)| > 0
  }

  function Marker(id: nat): string {
    "<cite>" + NatToString(id) + "</cite>"
  }

  /** The `j`-th cited support gets citation id `j + 1`. */
  function MarkerEdits(cited: seq<Support>): (r: seq<Edit>)
    ensures |r| == |cited|
    ensures forall j :: 0 <= j < |cited| ==> r[j] == Edit(EndKey(cited[j]), Marker(j + 1))
  {
    seq(|cited|, j requires 0 <= j < |cited| => Edit(EndKey(cited[j]), Marker(j + 1)))
  }

  lemma MarkerEditsSnoc(cited: seq<Support>, s: Support)
    ensures MarkerEdits(cited + [s]) == MarkerEdits(cited) + [Edit(EndKey(s), Marker(|cited| + 1))]
  {
  }

  function CitationsOf(cited: seq<Support>, chunks: seq<Chunk>): (r: seq<Citation>)
    ensures |r| == |cited|
    ensures forall j :: 0 <= j < |cited| ==> r[j] == Citation(j + 1, SourcesOf(cited[j], chunks))
  {
    seq(|cited|, j requires 0 <= j < |cited| => Citation(j + 1, SourcesOf(cited[j], chunks)))
  }

  lemma CitationsOfSnoc(cited: seq<Support>, s: Support, chunks: seq<Chunk>)
    ensures CitationsOf(cited + [s], chunks) == CitationsOf(cited, chunks) + [Citation(|cited| + 1, SourcesOf(s, chunks))]
  {
  }

  /** The supports that receive a marker, in the order they are processed. */
  function CitedSupports(g: Grounding): seq<Support>
    requires g.supports.Some? && g.chunks.Some?
  {
    Filter(SortByEndDesc(g.supports.value), IsCitedIn(g.chunks.value))
  }

  /** The marker loop over the supports in the order given; ids start at 1. */
  method SpliceMarkers(text0: string, sorted: seq<Support>, chunks: seq<Chunk>)
    returns (text: string, found: seq<Citation>)
    ensures var cited := Filter(sorted, IsCitedIn(chunks));
      found == CitationsOf(cited, chunks) && text == SpliceAll(text0, MarkerEdits(cited))
  {
    text, found := text0, [];
    var citationCounter: nat := 1;
    ghost var keep := IsCitedIn(chunks);
    ghost var cited: seq<Support> := [];
    for i := 0 to |sorted|
      invariant cited == Filter(sorted[..i], keep)
      invariant citationCounter == |cited| + 1
      invariant found == CitationsOf(cited, chunks)
      invariant text == SpliceAll(text0, MarkerEdits(cited))
    {
      var support := sorted[i];
      assert sorted[..i + 1] == sorted[..i] + [support];
      FilterSnoc(sorted[..i], support, keep);
      var endIndex := EndIndex(support);
      if endIndex.None? || support.chunkIndices.None? || |support.chunkIndices.value| == 0 {
        assert Filter(sorted[..i + 1], keep) == cited;
        continue;
      }
      var sources := SourcesOf(support, chunks);
      if |sources| > 0 {
        MarkerEditsSnoc(cited, support);
        SpliceAllSnoc(text0, MarkerEdits(cited), Edit(endIndex.value, Marker(citationCounter)));
        CitationsOfSnoc(cited, support, chunks);
        text := SpliceAt(text, endIndex.value, Marker(citationCounter));
        found := found + [Citation(citationCounter, sources)];
        cited := cited + [support];
        citationCounter := citationCounter + 1;
      } else {
        assert Filter(sorted[..i + 1], keep) == cited;
      }
    }
    assert sorted[..|sorted|] == sorted;
  }

  /** The marker step of `generateResponse` (its two copies for the forced and the
      switched search): without supports or chunks the text is unchanged and there
      are no citations; otherwise each cited support, in descending end-index order,
      gets the next id and one `<cite>id</cite>` marker after its end index. */
  method InsertCitationMarkers(text0: string, grounding: Option<Grounding>)
    returns (text: string, citations: Option<seq<Citation>>)
    ensures grounding.None? || grounding.value.supports.None? || grounding.value.chunks.None? ==>
      text == text0 && citations.None?
    ensures grounding.Some? && grounding.value.supports.Some? && grounding.value.chunks.Some? ==>
      var cited := CitedSupports(grounding.value);
      citations == Some(CitationsOf(cited, grounding.value.chunks.value))
      && text == SpliceAll(text0, MarkerEdits(cited))
  {
    text, citations := text0, None;
    if grounding.None? || grounding.value.supports.None? || grounding.value.chunks.None? {
      return;
    }
    var sorted := SortByEndDesc(grounding.value.supports.value);
    var found;
    text, found := SpliceMarkers(text0, sorted, grounding.value.chunks.value);
    citations := Some(found);
  }

  /** Citation ids run 1, 2, ... with no gaps, every listed source has a URI, the
      sources of each citation are non-empty, and ids are handed out from the
      largest end index down (id 1 belongs to a support whose end index is maximal
      among the cited ones). */
  lemma CitationsNumberedFromLargestEnd(g: Grounding)
    requires g.supports.Some? && g.chunks.Some?
    ensures var cited := CitedSupports(g);
      var cs := CitationsOf(cited, g.chunks.value);
      (forall j :: 0 <= j < |cs| ==>
         (cs[j].id == j + 1 && |cs[j].sources| > 0 && forall src :: src in cs[j].sources ==> HasUri(src)))
      && (forall j :: 0 <= j < |cited| ==> EndKey(cited[0]) >= EndKey(cited[j]))
  {
    var cited := CitedSupports(g);
    FilterSortedDesc(SortByEndDesc(g.supports.value), IsCitedIn(g.chunks.value));
    forall j | 0 <= j < |cited|
      ensures |SourcesOf(cited[j], g.chunks.value)| > 0
    {
      assert cited[j] in cited;
    }
  }

  /** Edits placed at the end indices of supports picked, in order, from the sorted
      supports are in bounds and in non-increasing position order. */
  lemma PickedEditsOrdered(t: string, supports: seq<Support>, keep: Support -> bool,
                           edits: seq<Edit>)
    requires forall s :: s in supports ==> 0 <= EndKey(s) <= |t|
    requires var picked := Filter(SortByEndDesc(supports), keep);
      |edits| == |picked| && forall j :: 0 <= j < |edits| ==> edits[j].at == EndKey(picked[j])
    ensures InBounds(edits, |t|) && NonIncreasing(edits)
  {
    var sorted := SortByEndDesc(supports);
    var picked := Filter(sorted, keep);
    FilterSortedDesc(sorted, keep);
    forall j | 0 <= j < |edits| ensures 0 <= edits[j].at <= |t| {
      assert picked[j] in picked;
      assert picked[j] in multiset(sorted);
      assert picked[j] in supports;
    }
  }

  /** With every end index inside the text, each marker lands right after the
      original prefix of length end index, and the original text survives in order. */
  lemma MarkersLandInOriginalText(t: string, g: Grounding)
    requires g.supports.Some? && g.chunks.Some?
    requires forall s :: s in g.supports.value ==> 0 <= EndKey(s) <= |t|
    ensures var edits := MarkerEdits(CitedSupports(g));
      IsSubseq(t, SpliceAll(t, edits))
      && forall j :: 0 <= j < |edits| ==> LandsAfterOriginalPrefix(t, edits, j)
  {
    var edits := MarkerEdits(CitedSupports(g));
    PickedEditsOrdered(t, g.supports.value, IsCitedIn(g.chunks.value), edits);
    SpliceAllKeepsOriginal(t, edits);
    SpliceAllLandsAfterOriginalPrefix(t, edits);
  }

  /** The same for the links of `addCitations`. */
  lemma LinksLandInOriginalText(t: string, g: Grounding, hostname: string -> string)
    requires g.supports.Some? && g.chunks.Some?
    requires forall s :: s in g.supports.value ==> 0 <= EndKey(s) <= |t|
    ensures var chunks := g.chunks.value;
      var edits := LinkEdits(Filter(SortByEndDesc(g.supports.value), HasLinksIn(chunks, hostname)),
                             chunks, hostname);
      IsSubseq(t, SpliceAll(t, edits))
      && forall j :: 0 <= j < |edits| ==> LandsAfterOriginalPrefix(t, edits, j)
  {
    var chunks := g.chunks.value;
    var keep := HasLinksIn(chunks, hostname);
    var edits := LinkEdits(Filter(SortByEndDesc(g.supports.value), keep), chunks, hostname);
    PickedEditsOrdered(t, g.supports.value, keep, edits);
    SpliceAllKeepsOriginal(t, edits);
    SpliceAllLandsAfterOriginalPrefix(t, edits);
  }

  /** When no chunk has a URI, there are no links, so `addCitations` leaves the
      text as it is. */
  lemma NoUriNoLinks(t: string, g: Grounding, hostname: string -> string)
    requires g.supports.Some? && g.chunks.Some?
    requires forall c :: c in g.chunks.value ==> c.web.None? || !Truthy(c.web.value.uri)
    ensures SpliceAll(t, LinkEdits(Filter(SortByEndDesc(g.supports.value), HasLinksIn(g.chunks.value, hostname)),
                                   g.chunks.value, hostname)) == t
  {
    var chunks := g.chunks.value;
    var sorted := SortByEndDesc(g.supports.value);
    forall s | s in sorted ensures !HasLinksIn(chunks, hostname)(s) {
      var links := Map(s.chunkIndices.GetOr([]), LinkForIn(chunks, hostname));
      forall o | o in links ensures !IsPresent(o) {
        var k :| 0 <= k < |links| && links[k] == o;
        var i := s.chunkIndices.GetOr([])[k];
        if 0 <= i < |chunks| {
          assert chunks[i] in chunks;
        }
      }
      FilterNone(links, IsPresent);
    }
    FilterNone(sorted, HasLinksIn(chunks, hostname));
  }

  // ---------------------------------------------------------------------------
  // generateResponse: the choice of model and the result record

  /** Which configuration a call to the remote API uses: the regular model with the
      `use_search_model` declaration, or the search-tool model. */
  datatype Mode = Regular | Search

  /** The outcome of one remote call: a response, or a thrown error's message. */
  datatype ApiResult = Answered(response: Response) | Threw(message: string)

  datatype AIResult =
    | Success(text: string, citations: Option<seq<Citation>>, usedSearch: bool,
              functionCalls: Option<seq<FunctionCall>>, thoughts: Option<seq<string>>, allParts: seq<Part>)
    | Failure(error: string)

  /** The regular model asked to switch: some function call is named `use_search_model`. */
  predicate SearchRequested(calls: Option<seq<FunctionCall>>) {
    calls.Some? && |calls.value| > 0 && exists c :: c in calls.value && c.name == "use_search_model"
  }

  /** `thoughts.length > 0 ? thoughts : null`. */
  function ThoughtsOrNull(thoughts: seq<string>): Option<seq<string>> {
    if |thoughts| > 0 then Some(thoughts) else None
  }

  /** The result record of a search-model response, stated with the specification
      functions of extraction and marking. */
  function SearchSuccess(r: Response): AIResult {
    var parts := CandidateParts(r);
    var answer := Concat(Map(Filter(parts, IsAnswer), TextOf));
    var g := GroundingOf(r);
    var marked := g.Some? && g.value.supports.Some? && g.value.chunks.Some?;
    Success(if marked then SpliceAll(answer, MarkerEdits(CitedSupports(g.value))) else answer,
            if marked then Some(CitationsOf(CitedSupports(g.value), g.value.chunks.value)) else None,
            true, None, ThoughtsOrNull(Map(Filter(parts, IsThought), TextOf)), parts)
  }

  method SearchResponse(r: Response) returns (result: AIResult)
    ensures result == SearchSuccess(r)
  {
    var thoughts, responseText, allParts := ExtractThoughtsAndText(r);
    var text, citations := InsertCitationMarkers(responseText, GroundingOf(r));
    result := Success(text, citations, true, None, ThoughtsOrNull(thoughts), allParts);
  }

  /** `generateResponse`: the request contents go to the search model when search is
      forced, else to the regular model, whose request to switch sends the same
      contents to the search model; any thrown error becomes a failure record. */
  method GenerateResponse(messageParts: seq<Part>, history: seq<Entry>, forceSearch: bool,
                          api: (Mode, seq<Content>) -> ApiResult)
    returns (result: AIResult)
    ensures var contents := BuildContents(history, messageParts);
      var first := api(if forceSearch then Search else Regular, contents);
      if first.Threw? then result == Failure(first.message)
      else if forceSearch then result == SearchSuccess(first.response)
      else if SearchRequested(first.response.functionCalls) then
        var second := api(Search, contents);
        result == (if second.Threw? then Failure(second.message) else SearchSuccess(second.response))
      else
        var parts := CandidateParts(first.response);
        result == Success(Concat(Map(Filter(parts, IsAnswer), TextOf)), None, false,
                          first.response.functionCalls, ThoughtsOrNull(Map(Filter(parts, IsThought), TextOf)), parts)
  {
    var contents := BuildContents(history, messageParts);
    if forceSearch {
      var searchResult := api(Search, contents);
      if searchResult.Threw? {
        return Failure(searchResult.message);
      }
      result := SearchResponse(searchResult.response);
      return;
    }
    var regular := api(Regular, contents);
    if regular.Threw? {
      return Failure(regular.message);
    }
    var functionCalls := regular.response.functionCalls;
    if SearchRequested(functionCalls) {
      var searchResult := api(Search, contents);
      if searchResult.Threw? {
        return Failure(searchResult.message);
      }
      result := SearchResponse(searchResult.response);
      return;
    }
    var thoughts, text, allParts := ExtractThoughtsAndText(regular.response);
    result := Success(text, None, false, functionCalls, ThoughtsOrNull(thoughts), allParts);
  }

  // ---------------------------------------------------------------------------
  // generateTitle

  predicate IsDialogueTurn(e: Entry) {
    e.role == "user" || e.role == "model"
  }

  predicate HasText(p: Part) {
    Truthy(p.text)
  }

  function TextOnly(p: Part): Part {
    TextPart(p.text.GetOr(""))
  }

  /** A turn reduced for the title prompt: its role and, in order, one `{text}` part
      per text part it has. */
  function TitleEntry(e: Entry): (c: Content)
    ensures c.role == e.role && |c.parts| == |Filter(e.parts, HasText)|
    ensures forall j :: 0 <= j < |c.parts| ==>
      Truthy(Filter(e.parts, HasText)[j].text) && c.parts[j] == TextPart(Filter(e.parts, HasText)[j].text.value)
  {
    var texts := Filter(e.parts, HasText);
    assert forall j :: 0 <= j < |texts| ==> texts[j] in texts;
    Content(e.role, Map(texts, TextOnly))
  }

  lemma TitleEntriesAreTextOnly(turns: seq<Entry>)
    requires forall e :: e in turns ==> IsDialogueTurn(e)
    ensures forall c :: c in Map(turns, TitleEntry) ==>
      ((c.role == "user" || c.role == "model")
       && forall p :: p in c.parts ==> Truthy(p.text) && p == TextPart(p.text.value))
  {
    var mapped := Map(turns, TitleEntry);
    forall c | c in mapped
      ensures (c.role == "user" || c.role == "model")
        && forall p :: p in c.parts ==> Truthy(p.text) && p == TextPart(p.text.value)
    {
      var k :| 0 <= k < |turns| && mapped[k] == c;
      assert turns[k] in turns;
      var texts := Filter(turns[k].parts, HasText);
      forall p | p in c.parts ensures Truthy(p.text) && p == TextPart(p.text.value) {
        var m :| 0 <= m < |texts| && c.parts[m] == p;
        assert texts[m] in texts;
      }
    }
  }

  /** The history summarised for a title: user and model turns only, their text
      parts reduced to `{text}`, and turns without text dropped. */
  function TitleHistory(h: seq<Entry>): (r: seq<Content>)
    ensures |r| <= |h|
    ensures forall c :: c in r ==>
      ((c.role == "user" || c.role == "model") && HasParts(c)
       && forall p :: p in c.parts ==> Truthy(p.text) && p == TextPart(p.text.value))
    ensures forall i :: 0 <= i < |h| && IsDialogueTurn(h[i]) && HasParts(TitleEntry(h[i])) ==> TitleEntry(h[i]) in r
    ensures IsSubseq(r, Map(Filter(h, IsDialogueTurn), TitleEntry))
    ensures forall c :: c in Map(Filter(h, IsDialogueTurn), TitleEntry) ==>
      multiset(r)[c] == if HasParts(c) then multiset(Map(Filter(h, IsDialogueTurn), TitleEntry))[c] else 0
  {
    var turns := Filter(h, IsDialogueTurn);
    var mapped := Map(turns, TitleEntry);
    TitleEntriesAreTextOnly(turns);
    assert forall i :: 0 <= i < |h| ==> h[i] in h;
    assert forall i :: 0 <= i < |turns| ==> mapped[i] in mapped;
    FilterIsSubseq(mapped, HasParts);
    FilterMultiset(mapped, HasParts);
    Filter(mapped, HasParts)
  }

  /** What the summarising call gives back: a title, or a thrown error. */
  datatype TitleResult = Generated(title: string) | TitleFailed

  const UntitledChat: string := "Untitled Chat"

  /** `generateTitle`: the summariser sees the text-only history, and a failure
      yields "Untitled Chat". */
  function GenerateTitle(history: seq<Entry>, summarize: seq<Content> -> TitleResult): (title: string)
    ensures summarize(TitleHistory(history)).TitleFailed? ==> title == UntitledChat
    ensures summarize(TitleHistory(history)).Generated? ==> title == summarize(TitleHistory(history)).title
  {
    match summarize(TitleHistory(history))
    case Generated(t) => t
    case TitleFailed => UntitledChat
  }
}
