/** The AI service layer: prompt selection, fallbacks on empty or failed replies, and the
    post-processing of search-grounding results. Every call to the generative-AI endpoint is
    replaced by its outcome, given as a parameter; so are JSON.parse and `new URL(u).hostname`,
    as functions that return None where the library would throw. */
module GeminiService {

  import opened Types
  import opened Seqs
  import opened Strings
  import opened UrlDedup

  /** The outcome of a text-producing call: it threw, or it answered with a possibly absent text. */
  datatype TextReply = Threw | Responded(text: Option<string>)

  /** One grounding chunk's `web` part; both fields may be missing. */
  datatype Web = Web(uri: Option<string>, title: Option<string>)

  /** One entry of `groundingMetadata.groundingChunks`. */
  datatype Chunk = Chunk(web: Option<Web>)

  /** The outcome of a search-grounded call: it threw, or it answered and carried grounding
      chunks or not (`candidates?.[0]?.groundingMetadata?.groundingChunks` may be undefined). */
  datatype SearchReply = SearchThrew | Answered(chunks: Option<seq<Chunk>>)

  /** The two rewriting modes of the resume enhancer. */
  datatype EnhanceKind = SummaryText | BulletText

  // ---------------------------------------------------------------------------------------
  // Prompt selection

  const RespondInEnglish := "Respond in English."
  const RespondInHinglish := "Respond in Hinglish (a natural, conversational blend of Hindi and English). Use Roman script for Hindi words. Keep the tone friendly and relatable."
  const RespondInHindi := "Respond in Hindi (Devanagari script)."

  /** The language line of the interview's system instruction: one instruction per language. */
  method ChatLanguageInstruction(language: AppLanguage) returns (instruction: string)
    ensures language == English <==> instruction == RespondInEnglish
    ensures language == Hinglish <==> instruction == RespondInHinglish
    ensures language == Hindi <==> instruction == RespondInHindi
  {
    instruction := RespondInEnglish;
    if language == Hinglish {
      instruction := RespondInHinglish;
    } else if language == Hindi {
      instruction := RespondInHindi;
    }
  }

  /** The language in which the report's reasoning and roadmap are requested. */
  function ReportLanguageContext(language: AppLanguage): (context: string)
    ensures StartsWith(context, "in " + LanguageName(language))
    ensures language == Hinglish <==> context != "in " + LanguageName(language)
  {
    if language == Hinglish then
      var c := "in Hinglish" + " (or English where technical terms apply)";
      assert c[..|"in Hinglish"|] == "in Hinglish";
      c
    else "in " + LanguageName(language)
  }

  const SummaryInstruction := "Rewrite this professional summary to be impactful, concise, and keyword-rich for a resume."
  const BulletInstruction := "Rewrite this experience description into strong, action-oriented bullet points quantifying achievements where possible."

  /** The rewriting instruction for a summary or for an experience description. */
  function EnhanceInstruction(kind: EnhanceKind): (instruction: string)
    ensures kind == SummaryText <==> instruction == SummaryInstruction
    ensures kind == BulletText <==> instruction == BulletInstruction
  {
    assert SummaryInstruction != BulletInstruction by {
      assert |SummaryInstruction| != |BulletInstruction|;
    }
    match kind
    case SummaryText => SummaryInstruction
    case BulletText => BulletInstruction
  }

  const ProfessionalEnglish := "Output in Professional English."
  const FormalHindi := "Output in formal Hindi."

  /** The output language of a resume rewrite: Hindi only when Hindi is selected; Hinglish
      speakers get English. */
  method ResumeLanguageInstruction(language: AppLanguage) returns (instruction: string)
    ensures language == Hindi <==> instruction == FormalHindi
    ensures language != Hindi <==> instruction == ProfessionalEnglish
  {
    instruction := ProfessionalEnglish;
    if language == Hindi {
      instruction := FormalHindi;
    }
  }

  const HindiAwareHead := "Find resources for learning "
  const HindiAwareTail := ". If available, include resources in Hindi or Hinglish, otherwise English."
  const CourseHead := "Find the best and most recent online courses, tutorials, or documentation to learn: "
  const CourseTail := ". Return a list of specific URLs."

  function Quoted(s: string): string {
    "\"" + s + "\""
  }

  /** The search prompt: a Hindi-aware prompt for Hindi and Hinglish, a course-finding prompt for
      English; either carries the user's query in quotes. */
  function LearningSearchPrompt(query: string, language: AppLanguage): (prompt: string)
    ensures Includes(prompt, Quoted(query))
  {
    if language == Hinglish || language == Hindi then
      IncludesMiddle(HindiAwareHead, Quoted(query), HindiAwareTail);
      HindiAwareHead + Quoted(query) + HindiAwareTail
    else
      IncludesMiddle(CourseHead, Quoted(query), CourseTail);
      CourseHead + Quoted(query) + CourseTail
  }

  /** Hindi and Hinglish share one search prompt, and it differs from the English one. */
  lemma SearchPromptChoice(query: string)
    ensures LearningSearchPrompt(query, Hinglish) == LearningSearchPrompt(query, Hindi)
    ensures LearningSearchPrompt(query, English) != LearningSearchPrompt(query, Hindi)
  {
    assert |CourseHead| + |CourseTail| != |HindiAwareHead| + |HindiAwareTail|;
  }

  /** The video search prompt carries the query in quotes. */
  function VideoSearchPrompt(query: string): (prompt: string)
    ensures Includes(prompt, Quoted(query))
  {
    IncludesMiddle("Find the best YouTube videos for: ", Quoted(query), ". Return 2-3 specific video URLs from youtube.com.");
    "Find the best YouTube videos for: " + Quoted(query) + ". Return 2-3 specific video URLs from youtube.com."
  }

  // ---------------------------------------------------------------------------------------
  // Fallbacks

  /** enhanceResumeText: the reply's text when there is one, the input otherwise. A rewrite
      therefore never blanks a field that had text. */
  function EnhanceResumeText(currentText: string, reply: TextReply): (r: string)
    ensures reply.Threw? ==> r == currentText
    ensures r == currentText || reply == Responded(Some(r))
    ensures reply.Responded? && Truthy(reply.text) ==> r == reply.text.value
    ensures r == "" ==> currentText == ""
  {
    match reply
    case Threw => currentText
    case Responded(text) => if Truthy(text) then text.value else currentText
  }

  /** The JSON-reply pattern shared by suggestSkills and generateCareerReport: the parsed list,
      or [] when the call threw, the text is empty or the parser threw; no error escapes. */
  function ParsedOrEmpty<T>(reply: TextReply, parse: string -> Option<seq<T>>): (xs: seq<T>)
    ensures reply.Threw? || !Truthy(reply.text) ==> xs == []
    ensures reply.Responded? && Truthy(reply.text) && parse(reply.text.value).None? ==> xs == []
    ensures xs != [] ==> reply.Responded? && Truthy(reply.text) && parse(reply.text.value) == Some(xs)
    ensures reply.Responded? && Truthy(reply.text) && parse(reply.text.value).Some? ==>
      xs == parse(reply.text.value).value
  {
    match reply
    case Threw => []
    case Responded(text) =>
      if !Truthy(text) then []
      else match parse(text.value)
        case None => []
        case Some(ys) => ys
  }

  /** suggestSkills: the parsed skill list, or []. */
  function SuggestSkills(reply: TextReply, parse: string -> Option<seq<string>>): seq<string> {
    ParsedOrEmpty(reply, parse)
  }

  /** generateCareerReport: the parsed suggestions, or []. */
  function GenerateCareerReport(reply: TextReply, parse: string -> Option<seq<CareerSuggestion>>): seq<CareerSuggestion> {
    ParsedOrEmpty(reply, parse)
  }


  // ---------------------------------------------------------------------------------------
  // Learning resources

  const GroundingDescription := "Found via Google Search Grounding"

  /** `chunk.web?.uri && chunk.web?.title`: both present and non-empty. */
  predicate HasUriAndTitle(c: Chunk) {
    c.web.Some? && Truthy(c.web.value.uri) && Truthy(c.web.value.title)
  }

  function UriOf(c: Chunk): string
    requires HasUriAndTitle(c)
  {
    c.web.value.uri.value
  }

  function TitleOf(c: Chunk): string
    requires HasUriAndTitle(c)
  {
    c.web.value.title.value
  }

  /** Every kept chunk's uri has a hostname (no `new URL` throws). */
  predicate HostsResolve(kept: seq<Chunk>, hostname: string -> Option<string>) {
    forall c :: c in kept ==> HasUriAndTitle(c) && hostname(UriOf(c)).Some?
  }

  /** The resource built for each kept chunk, in order. */
  function LearningResources(kept: seq<Chunk>, hostname: string -> Option<string>): (rs: seq<LearningResource>)
    requires HostsResolve(kept, hostname)
    ensures |rs| == |kept|
  {
    seq(|kept|, k requires 0 <= k < |kept| && HostsResolve(kept, hostname) =>
      LearningResource(TitleOf(kept[k]), UriOf(kept[k]), hostname(UriOf(kept[k])).value, Some(GroundingDescription)))
  }

  /** The uris of chunks that have one, in order. */
  function Uris(kept: seq<Chunk>): (us: seq<string>)
    requires forall c :: c in kept ==> HasUriAndTitle(c)
    ensures |us| == |kept|
    ensures forall k :: 0 <= k < |kept| ==> us[k] == UriOf(kept[k])
  {
    seq(|kept|, k requires 0 <= k < |kept| => UriOf(kept[k]))
  }

  /** Each resource built from resolving chunks has a uri, a title, the hostname of its uri as
      its source and the fixed description. */
  lemma LearningResourcesWellFormed(kept: seq<Chunk>, hostname: string -> Option<string>)
    requires HostsResolve(kept, hostname)
    ensures forall r :: r in LearningResources(kept, hostname) ==>
      r.url != "" && r.title != "" && hostname(r.url) == Some(r.source) && r.description == Some(GroundingDescription)
  {
    var rs := LearningResources(kept, hostname);
    forall r | r in rs
      ensures r.url != "" && r.title != "" && hostname(r.url) == Some(r.source) && r.description == Some(GroundingDescription)
    {
      var k := FirstIndex(rs, r);
      assert kept[k] in kept;
    }
  }

  /** What findLearningResources returns for a reply, as a function: distinct URLs, and
      nothing when the call throws or brings no chunks. */
  function LearningResult(reply: SearchReply, hostname: string -> Option<string>): (resources: seq<LearningResource>)
    ensures Distinct(Urls(resources))
    ensures reply.SearchThrew? || reply.chunks.None? ==> resources == []
  {
    match reply
    case SearchThrew => []
    case Answered(None) => []
    case Answered(Some(chunks)) =>
      var kept := Filter(chunks, HasUriAndTitle);
      if HostsResolve(kept, hostname) then DedupByUrl(LearningResources(kept, hostname)) else []
  }

  /** Each resource has a uri, a title, the hostname of its uri as source and the fixed
      description. */
  lemma LearningResultWellFormed(reply: SearchReply, hostname: string -> Option<string>)
    ensures forall r :: r in LearningResult(reply, hostname) ==>
      r.url != "" && r.title != "" && hostname(r.url) == Some(r.source) && r.description == Some(GroundingDescription)
  {
    if reply.Answered? && reply.chunks.Some? {
      var kept := Filter(reply.chunks.value, HasUriAndTitle);
      if HostsResolve(kept, hostname) {
        LearningResourcesWellFormed(kept, hostname);
        DedupSubset(LearningResources(kept, hostname));
      }
    }
  }

  /** When a kept chunk's uri has no hostname the result is empty; otherwise the result holds
      exactly the uris of the chunks that have a uri and a title. */
  lemma LearningResultCoverage(chunks: seq<Chunk>, hostname: string -> Option<string>)
    ensures !HostsResolve(Filter(chunks, HasUriAndTitle), hostname) ==>
      LearningResult(Answered(Some(chunks)), hostname) == []
    ensures HostsResolve(Filter(chunks, HasUriAndTitle), hostname) ==>
      forall u :: u in Urls(LearningResult(Answered(Some(chunks)), hostname)) <==> u in Uris(Filter(chunks, HasUriAndTitle))
  {
    var kept := Filter(chunks, HasUriAndTitle);
    if HostsResolve(kept, hostname) {
      assert Urls(LearningResources(kept, hostname)) == Uris(kept);
    }
  }

  /** Every resource comes from a chunk of the reply with that uri and that title. */
  lemma LearningResultProvenance(chunks: seq<Chunk>, hostname: string -> Option<string>)
    ensures forall r :: r in LearningResult(Answered(Some(chunks)), hostname) ==>
      exists c :: c in chunks && HasUriAndTitle(c) && r.url == UriOf(c) && r.title == TitleOf(c)
  {
    var kept := Filter(chunks, HasUriAndTitle);
    if HostsResolve(kept, hostname) {
      var rs := LearningResources(kept, hostname);
      DedupSubset(rs);
      forall r | r in LearningResult(Answered(Some(chunks)), hostname)
        ensures exists c :: c in chunks && HasUriAndTitle(c) && r.url == UriOf(c) && r.title == TitleOf(c)
      {
        var k := FirstIndex(rs, r);
        assert kept[k] in kept;
      }
    }
  }

  /** One more resolving chunk adds its resource at the end. */
  lemma LearningResourcesAppend(kept: seq<Chunk>, c: Chunk, hostname: string -> Option<string>)
    requires HostsResolve(kept, hostname)
    requires HasUriAndTitle(c) && hostname(UriOf(c)).Some?
    ensures HostsResolve(kept + [c], hostname)
    ensures LearningResources(kept + [c], hostname) ==
      LearningResources(kept, hostname) + [LearningResource(TitleOf(c), UriOf(c), hostname(UriOf(c)).value, Some(GroundingDescription))]
  {
    assert forall x :: x in kept + [c] ==> x in kept || x == c;
  }

  /** A single kept chunk whose uri has no hostname empties the whole result. */
  lemma UnresolvedHostEmpties(chunks: seq<Chunk>, c: Chunk, hostname: string -> Option<string>)
    requires c in chunks && HasUriAndTitle(c) && hostname(UriOf(c)).None?
    ensures LearningResult(Answered(Some(chunks)), hostname) == []
  {
    assert c in Filter(chunks, HasUriAndTitle);
  }

  /** One more chunk: one without a uri or a title is dropped; one whose host resolves adds
      its resource at the end. */
  lemma LearningStep(seen: seq<Chunk>, c: Chunk, hostname: string -> Option<string>)
    requires HostsResolve(Filter(seen, HasUriAndTitle), hostname)
    ensures !HasUriAndTitle(c) ==> Filter(seen + [c], HasUriAndTitle) == Filter(seen, HasUriAndTitle)
    ensures HasUriAndTitle(c) && hostname(UriOf(c)).Some? ==>
      HostsResolve(Filter(seen + [c], HasUriAndTitle), hostname) &&
      LearningResources(Filter(seen + [c], HasUriAndTitle), hostname) ==
        LearningResources(Filter(seen, HasUriAndTitle), hostname) +
        [LearningResource(TitleOf(c), UriOf(c), hostname(UriOf(c)).value, Some(GroundingDescription))]
  {
    FilterConcat(seen, [c], HasUriAndTitle);
    if HasUriAndTitle(c) {
      if hostname(UriOf(c)).Some? {
        LearningResourcesAppend(Filter(seen, HasUriAndTitle), c, hostname);
      }
    } else {
      assert Filter([c], HasUriAndTitle) == [];
    }
  }

  /** findLearningResources: the forEach over the chunks pushes one resource per chunk with a
      uri and a title; a uri without a hostname throws, and the catch returns []. */
  method FindLearningResources(reply: SearchReply, hostname: string -> Option<string>) returns (resources: seq<LearningResource>)
    ensures resources == LearningResult(reply, hostname)
  {
    if reply.SearchThrew? {
      return [];
    }
    var found: seq<LearningResource> := [];
    if reply.chunks.Some? {
      var chunks := reply.chunks.value;
      var i := 0;
      while i < |chunks|
        invariant 0 <= i <= |chunks|
        invariant HostsResolve(Filter(chunks[..i], HasUriAndTitle), hostname)
        invariant found == LearningResources(Filter(chunks[..i], HasUriAndTitle), hostname)
      {
        var c := chunks[i];
        LearningStep(chunks[..i], c, hostname);
        assert chunks[..i + 1] == chunks[..i] + [c];
        if c.web.Some? && Truthy(c.web.value.uri) && Truthy(c.web.value.title) {
          var host := hostname(c.web.value.uri.value);
          if host.None? {
            UnresolvedHostEmpties(chunks, c, hostname);
            return [];
          }
          found := found + [LearningResource(c.web.value.title.value, c.web.value.uri.value, host.value, Some(GroundingDescription))];
        }
        i := i + 1;
      }
      assert chunks[..i] == chunks;
    }
    resources := DedupByUrl(found);
  }

  // ---------------------------------------------------------------------------------------
  // Videos

  const YouTubeSuffix := " - YouTube"
  const VideoDescription := "Recommended Video"

  /** A chunk with a uri and a title whose uri mentions youtube.com. */
  predicate IsVideoChunk(c: Chunk) {
    HasUriAndTitle(c) && Includes(UriOf(c), "youtube.com")
  }

  /** The resource built for a video chunk: the first " - YouTube" is cut from its title. */
  function VideoOf(c: Chunk): (v: LearningResource)
    requires IsVideoChunk(c)
    ensures v.title == ReplaceFirst(TitleOf(c), YouTubeSuffix, "")
    ensures v.url == UriOf(c) && Includes(v.url, "youtube.com")
    ensures v.source == "YouTube" && v.description == Some(VideoDescription)
  {
    LearningResource(ReplaceFirst(TitleOf(c), YouTubeSuffix, ""), UriOf(c), "YouTube", Some(VideoDescription))
  }

  /** The video chunks, turned into resources, in order. */
  function VideosFrom(chunks: seq<Chunk>): (vs: seq<LearningResource>)
    ensures forall v :: v in vs ==> exists c :: c in chunks && IsVideoChunk(c) && v == VideoOf(c)
  {
    var kept := Filter(chunks, IsVideoChunk);
    var vs := seq(|kept|, k requires 0 <= k < |kept| => VideoOf(kept[k]));
    assert forall v :: v in vs ==> exists c :: c in chunks && IsVideoChunk(c) && v == VideoOf(c) by {
      forall v | v in vs ensures exists c :: c in chunks && IsVideoChunk(c) && v == VideoOf(c) {
        var k := FirstIndex(vs, v);
        assert kept[k] in kept;
      }
    }
    vs
  }

  /** Every resource built from a video chunk is a YouTube link with the fixed description. */
  lemma VideosWellFormed(vs: seq<LearningResource>, chunks: seq<Chunk>)
    requires forall v :: v in vs ==> exists c :: c in chunks && IsVideoChunk(c) && v == VideoOf(c)
    ensures forall v :: v in vs ==>
      Includes(v.url, "youtube.com") && v.source == "YouTube" && v.description == Some(VideoDescription)
  {
    forall v | v in vs
      ensures Includes(v.url, "youtube.com") && v.source == "YouTube" && v.description == Some(VideoDescription)
    {
      var c :| c in chunks && IsVideoChunk(c) && v == VideoOf(c);
    }
  }

  /** A prefix of a list with distinct URLs has distinct URLs and holds only its members. */
  lemma TakeKeepsDistinctUrls(out: seq<LearningResource>, n: nat)
    requires Distinct(Urls(out))
    ensures Distinct(Urls(Take(out, n)))
    ensures forall v :: v in Take(out, n) ==> v in out
  {
    var t := Take(out, n);
    assert Urls(t) == Urls(out)[..|t|];
  }

  /** What findVideoResources returns for a reply: at most three links with distinct URLs,
      nothing when the call throws or brings no chunks. */
  function VideoResult(reply: SearchReply): (videos: seq<LearningResource>)
    ensures |videos| <= 3
    ensures Distinct(Urls(videos))
    ensures reply.SearchThrew? || reply.chunks.None? ==> videos == []
  {
    match reply
    case SearchThrew => []
    case Answered(None) => []
    case Answered(Some(chunks)) =>
      var out := DedupByUrl(VideosFrom(chunks));
      TakeKeepsDistinctUrls(out, 3);
      Take(out, 3)
  }

  /** Every video is built from a YouTube chunk of the reply, so it is a youtube.com link with
      source "YouTube" and the fixed description. */
  lemma VideoResultFromChunks(chunks: seq<Chunk>)
    ensures forall v :: v in VideoResult(Answered(Some(chunks))) ==>
      exists c :: c in chunks && IsVideoChunk(c) && v == VideoOf(c)
    ensures forall v :: v in VideoResult(Answered(Some(chunks))) ==>
      Includes(v.url, "youtube.com") && v.source == "YouTube" && v.description == Some(VideoDescription)
  {
    var vs := VideosFrom(chunks);
    var out := DedupByUrl(vs);
    DedupSubset(vs);
    TakeKeepsDistinctUrls(out, 3);
    var videos := Take(out, 3);
    assert forall v :: v in videos ==> exists c :: c in chunks && IsVideoChunk(c) && v == VideoOf(c);
    VideosWellFormed(videos, chunks);
  }

  /** The uri of every YouTube chunk is among the URLs of the videos built before de-duplication. */
  lemma VideoChunkUrl(chunks: seq<Chunk>, c: Chunk)
    requires c in chunks && IsVideoChunk(c)
    ensures UriOf(c) in Urls(VideosFrom(chunks))
  {
    var kept := Filter(chunks, IsVideoChunk);
    var k := FirstIndex(kept, c);
    assert VideosFrom(chunks)[k] == VideoOf(c);
    assert Urls(VideosFrom(chunks))[k] == UriOf(c);
  }

  /** The videos are the first three de-duplicated YouTube links, in order; a reply with a
      YouTube chunk yields at least one video; and when there are at most three distinct
      YouTube links, the uri of every YouTube chunk is among the videos. */
  lemma VideoResultCoverage(chunks: seq<Chunk>)
    ensures var all := DedupByUrl(VideosFrom(chunks));
      var videos := VideoResult(Answered(Some(chunks)));
      |videos| == (if |all| < 3 then |all| else 3) && videos == all[..|videos|]
    ensures (exists c :: c in chunks && IsVideoChunk(c)) ==> VideoResult(Answered(Some(chunks))) != []
    ensures |DedupByUrl(VideosFrom(chunks))| <= 3 ==>
      forall c :: c in chunks && IsVideoChunk(c) ==> UriOf(c) in Urls(VideoResult(Answered(Some(chunks))))
  {
    var all := DedupByUrl(VideosFrom(chunks));
    var videos := VideoResult(Answered(Some(chunks)));
    assert videos == Take(all, 3);
    forall c | c in chunks && IsVideoChunk(c)
      ensures all != [] && UriOf(c) in Urls(all)
    {
      VideoChunkUrl(chunks, c);
    }
  }

  /** One more chunk extends the video list by at most its own video. */
  lemma VideosFromStep(seen: seq<Chunk>, c: Chunk)
    ensures VideosFrom(seen + [c]) == VideosFrom(seen) + (if IsVideoChunk(c) then [VideoOf(c)] else [])
  {
    FilterConcat(seen, [c], IsVideoChunk);
    if !IsVideoChunk(c) {
      assert Filter([c], IsVideoChunk) == [];
    }
  }

  /** findVideoResources: the forEach pushes one resource per YouTube chunk; the list is
      de-duplicated by URL and cut to its first three entries. */
  method FindVideoResources(reply: SearchReply) returns (videos: seq<LearningResource>)
    ensures videos == VideoResult(reply)
  {
    if reply.SearchThrew? {
      return [];
    }
    var found: seq<LearningResource> := [];
    if reply.chunks.Some? {
      var chunks := reply.chunks.value;
      var i := 0;
      while i < |chunks|
        invariant 0 <= i <= |chunks|
        invariant found == VideosFrom(chunks[..i])
      {
        var c := chunks[i];
        VideosFromStep(chunks[..i], c);
        assert chunks[..i + 1] == chunks[..i] + [c];
        if c.web.Some? && Truthy(c.web.value.uri) && Truthy(c.web.value.title) && Includes(c.web.value.uri.value, "youtube.com") {
          found := found + [LearningResource(ReplaceFirst(c.web.value.title.value, YouTubeSuffix, ""), c.web.value.uri.value, "YouTube", Some(VideoDescription))];
        }
        i := i + 1;
      }
      assert chunks[..i] == chunks;
    }
    videos := Take(DedupByUrl(found), 3);
  }

  /** A title that ends in " - YouTube", and has it nowhere else, loses exactly that suffix. */
  lemma StripsYouTubeSuffix(name: string)
    requires !Includes(name, YouTubeSuffix)
    ensures ReplaceFirst(name + YouTubeSuffix, YouTubeSuffix, "") == name
  {
    var s, p := name + YouTubeSuffix, YouTubeSuffix;
    assert OccursAt(s, p, |name|) by {
      assert s[|name|..|name| + |p|] == p;
    }
    forall i: nat | i < |name| ensures !OccursAt(s, p, i) {
      if i + |p| <= |name| {
        assert s[i..i + |p|] == name[i..i + |p|];
        assert !OccursAt(name, p, i);
      } else {
        var d := i + |p| - 1 - |name|;
        assert s[i + |p| - 1] == p[d];
        assert p[d] != p[|p| - 1];
        assert s[i..i + |p|][|p| - 1] == s[i + |p| - 1];
      }
    }
    var j := IndexOf(s, p).value;
    assert j == |name|;
    assert s[..j] == name;
  }

  /** A video whose chunk title is a name followed by " - YouTube" is titled with the name. */
  lemma VideoTitleStripped(c: Chunk, name: string)
    requires IsVideoChunk(c) && TitleOf(c) == name + YouTubeSuffix && !Includes(name, YouTubeSuffix)
    ensures VideoOf(c).title == name
  {
    StripsYouTubeSuffix(name);
  }

}
