/** The reply normaliser of `EditorService.getFeedback` (services/geminiService.ts).
    The call to the language backend is not modelled: its result arrives as an
    `Outcome`, either a reply or a failure (anything the backend call or the
    normalisation throws). Normalisation never fails outward. */
module EditorService {
  import opened Wrappers
  import opened Types
  import opened Text

  /** Text used when the backend's reply text is missing or empty. */
  const Placeholder: string := "I'm speechless, and not in a good way."
  /** Text of the response returned on any failure. */
  const ApologyText: string := "My apologies, darling. Even editors have their off days. Try again."
  const DefaultTitle: string := "Review Source"
  const DefaultUri: string := "#"

  /** The keyword classes of the sentiment heuristic, all lower case. */
  const PositiveKeywords: seq<string> := ["masterpiece", "brilliant", "must-watch"]
  const CriticalKeywords: seq<string> := ["tedious", "mediocre", "trash", "avoid"]

  /** The backend reply, restricted to the fields the normaliser reads. */
  datatype Web = Web(title: Option<string>, uri: Option<string>)
  datatype Chunk = Chunk(web: Option<Web>)
  datatype Metadata = Metadata(groundingChunks: Option<seq<Chunk>>)
  datatype Candidate = Candidate(groundingMetadata: Option<Metadata>)
  datatype Reply = Reply(text: Option<string>, candidates: Option<seq<Candidate>>)

  datatype Outcome = Replied(reply: Reply) | Failed

  /** JavaScript's `v || d` on an optional string: a missing or empty string is falsy. */
  function OrElse(v: Option<string>, d: string): (r: string)
    ensures v.Some? && v.value != "" ==> r == v.value
    ensures v.None? || v.value == "" ==> r == d
  {
    if v.Some? && v.value != "" then v.value else d
  }

  /** One citation, with the default title and link filled in. */
  function SourceOf(c: Chunk): (s: Source)
    ensures s.title != "" && s.uri != ""
  {
    match c.web
    case None => Source(DefaultTitle, DefaultUri)
    case Some(w) => Source(OrElse(w.title, DefaultTitle), OrElse(w.uri, DefaultUri))
  }

  /** `chunks.map(...)`: one citation per chunk, in the same order. */
  function SourcesOf(chunks: seq<Chunk>): (r: seq<Source>)
    ensures |r| == |chunks|
    ensures forall i :: 0 <= i < |chunks| ==> r[i] == SourceOf(chunks[i])
  {
    if chunks == [] then [] else [SourceOf(chunks[0])] + SourcesOf(chunks[1..])
  }

  /** `candidates?.[0]?.groundingMetadata?.groundingChunks` */
  function GroundingChunks(reply: Reply): Option<seq<Chunk>>
  {
    match reply.candidates
    case None => None
    case Some(cs) =>
      if cs == [] then None
      else match cs[0].groundingMetadata
           case None => None
           case Some(m) => m.groundingChunks
  }

  /** The citations of a reply: missing grounding data yields the empty list. */
  function Sources(reply: Reply): (r: seq<Source>)
    ensures GroundingChunks(reply).None? ==> r == []
    ensures GroundingChunks(reply).Some? ==>
              |r| == |GroundingChunks(reply).value| &&
              forall i :: 0 <= i < |r| ==> r[i] == SourceOf(GroundingChunks(reply).value[i])
  {
    match GroundingChunks(reply)
    case None => []
    case Some(chunks) => SourcesOf(chunks)
  }

  predicate HasAny(s: string, keywords: seq<string>)
  {
    exists i :: 0 <= i < |keywords| && Contains(s, keywords[i])
  }

  /** The order-sensitive keyword heuristic: the positive class is tested first. */
  function Classify(text: string): Sentiment
  {
    var lower := LowerStr(text);
    if Contains(lower, "masterpiece") || Contains(lower, "brilliant") || Contains(lower, "must-watch") then
      Positive
    else if Contains(lower, "tedious") || Contains(lower, "mediocre") || Contains(lower, "trash") || Contains(lower, "avoid") then
      Critical
    else
      Neutral
  }

  lemma HasAnyPositive(s: string)
    ensures HasAny(s, PositiveKeywords) <==>
              Contains(s, "masterpiece") || Contains(s, "brilliant") || Contains(s, "must-watch")
  {
    if Contains(s, "masterpiece") { assert Contains(s, PositiveKeywords[0]); }
    if Contains(s, "brilliant") { assert Contains(s, PositiveKeywords[1]); }
    if Contains(s, "must-watch") { assert Contains(s, PositiveKeywords[2]); }
  }

  lemma HasAnyCritical(s: string)
    ensures HasAny(s, CriticalKeywords) <==>
              Contains(s, "tedious") || Contains(s, "mediocre") || Contains(s, "trash") || Contains(s, "avoid")
  {
    if Contains(s, "tedious") { assert Contains(s, CriticalKeywords[0]); }
    if Contains(s, "mediocre") { assert Contains(s, CriticalKeywords[1]); }
    if Contains(s, "trash") { assert Contains(s, CriticalKeywords[2]); }
    if Contains(s, "avoid") { assert Contains(s, CriticalKeywords[3]); }
  }

  lemma HasAnyConcat(s: string, a: seq<string>, b: seq<string>)
    ensures HasAny(s, a + b) <==> HasAny(s, a) || HasAny(s, b)
  {
    if HasAny(s, a + b) {
      var i :| 0 <= i < |a + b| && Contains(s, (a + b)[i]);
      if i >= |a| { assert Contains(s, b[i - |a|]); }
    }
    if HasAny(s, b) {
      var i :| 0 <= i < |b| && Contains(s, b[i]);
      assert (a + b)[|a| + i] == b[i];
    }
    if HasAny(s, a) {
      var i :| 0 <= i < |a| && Contains(s, a[i]);
      assert (a + b)[i] == a[i];
    }
  }

  /** The three classes, stated against the keyword lists: positive exactly when a
      positive keyword occurs in the lowered text; critical exactly when no positive
      but some critical keyword occurs; neutral exactly when none of the seven occurs. */
  lemma ClassifySpec(text: string)
    ensures Classify(text) == Positive <==> HasAny(LowerStr(text), PositiveKeywords)
    ensures Classify(text) == Critical <==>
              !HasAny(LowerStr(text), PositiveKeywords) && HasAny(LowerStr(text), CriticalKeywords)
    ensures Classify(text) == Neutral <==> !HasAny(LowerStr(text), PositiveKeywords + CriticalKeywords)
  {
    HasAnyPositive(LowerStr(text));
    HasAnyCritical(LowerStr(text));
    HasAnyConcat(LowerStr(text), PositiveKeywords, CriticalKeywords);
  }

  /** Positive takes precedence over critical when keywords of both classes occur. */
  lemma PositiveWins(text: string)
    requires HasAny(LowerStr(text), PositiveKeywords) && HasAny(LowerStr(text), CriticalKeywords)
    ensures Classify(text) == Positive
  {
    ClassifySpec(text);
  }

  /** Classification depends on the letters only, not on their case. */
  lemma ClassifyIgnoresCase(a: string, b: string)
    requires SameUpToCase(a, b)
    ensures Classify(a) == Classify(b)
  {
    LowerStrSameUpToCase(a, b);
  }

  /** Upper-casing a text never changes its class. */
  lemma ClassifyUpper(text: string)
    ensures Classify(UpperStr(text)) == Classify(text)
  {
    UpperStrSameUpToCase(text);
    ClassifyIgnoresCase(UpperStr(text), text);
  }

  /** Lowering a text with a keyword inside it leaves the keyword intact. */
  lemma LowerAroundKeyword(prefix: string, keyword: string, suffix: string)
    requires keyword in PositiveKeywords + CriticalKeywords
    ensures Contains(LowerStr(prefix + keyword + suffix), keyword)
  {
    assert LowerStr(prefix + keyword + suffix) == LowerStr(prefix) + keyword + LowerStr(suffix);
    SelfContains(keyword);
    ContainsInContext(LowerStr(prefix), keyword, LowerStr(suffix), keyword);
  }

  /** A positive keyword inside a longer word ("Brilliantly") still makes the text positive. */
  lemma PositiveInContext(prefix: string, keyword: string, suffix: string)
    requires keyword in PositiveKeywords
    ensures Classify(prefix + keyword + suffix) == Positive
  {
    var t := prefix + keyword + suffix;
    LowerAroundKeyword(prefix, keyword, suffix);
    var i :| 0 <= i < |PositiveKeywords| && PositiveKeywords[i] == keyword;
    ClassifySpec(t);
  }

  /** A critical keyword inside a longer word ("Unavoidable") makes the text critical,
      unless a positive keyword occurs too. */
  lemma CriticalInContext(prefix: string, keyword: string, suffix: string)
    requires keyword in CriticalKeywords
    requires !HasAny(LowerStr(prefix + keyword + suffix), PositiveKeywords)
    ensures Classify(prefix + keyword + suffix) == Critical
  {
    var t := prefix + keyword + suffix;
    LowerAroundKeyword(prefix, keyword, suffix);
    var i :| 0 <= i < |CriticalKeywords| && CriticalKeywords[i] == keyword;
    ClassifySpec(t);
  }

  /** A keyword with a character the text lacks cannot occur in it. */
  lemma KeywordAbsent(s: string, keyword: string, c: char)
    requires c in keyword && c !in s
    ensures !Contains(s, keyword)
  {
    if Contains(s, keyword) {
      ContainsOnlyItsCharacters(s, keyword, c);
    }
  }

  /** No positive keyword occurs in a text lacking one character of each. */
  lemma NoPositiveKeyword(s: string, a: char, b: char, c: char)
    requires a in "masterpiece" && a !in s
    requires b in "brilliant" && b !in s
    requires c in "must-watch" && c !in s
    ensures !HasAny(s, PositiveKeywords)
  {
    KeywordAbsent(s, "masterpiece", a);
    KeywordAbsent(s, "brilliant", b);
    KeywordAbsent(s, "must-watch", c);
    HasAnyPositive(s);
  }

  /** No critical keyword occurs in a text lacking one character of each. */
  lemma NoCriticalKeyword(s: string, a: char, b: char, c: char, d: char)
    requires a in "tedious" && a !in s
    requires b in "mediocre" && b !in s
    requires c in "trash" && c !in s
    requires d in "avoid" && d !in s
    ensures !HasAny(s, CriticalKeywords)
  {
    KeywordAbsent(s, "tedious", a);
    KeywordAbsent(s, "mediocre", b);
    KeywordAbsent(s, "trash", c);
    KeywordAbsent(s, "avoid", d);
    HasAnyCritical(s);
  }

  /** The lowered placeholder has no 'r', no 'u' and no 'v', one of which every keyword needs. */
  lemma PlaceholderLacksR()
    ensures 'r' !in LowerStr(Placeholder)
  {
    LowerStrAbsent(Placeholder, 'r');
  }

  lemma PlaceholderLacksU()
    ensures 'u' !in LowerStr(Placeholder)
  {
    LowerStrAbsent(Placeholder, 'u');
  }

  lemma PlaceholderLacksV()
    ensures 'v' !in LowerStr(Placeholder)
  {
    LowerStrAbsent(Placeholder, 'v');
  }

  /** The placeholder used for an empty reply mentions none of the seven keywords. */
  lemma PlaceholderIsNeutral()
    ensures Classify(Placeholder) == Neutral
  {
    var lower := LowerStr(Placeholder);
    PlaceholderLacksR();
    PlaceholderLacksU();
    PlaceholderLacksV();
    NoPositiveKeyword(lower, 'r', 'r', 'u');
    NoCriticalKeyword(lower, 'u', 'r', 'r', 'v');
    ClassifySpec(Placeholder);
    HasAnyConcat(lower, PositiveKeywords, CriticalKeywords);
  }

  /** The fixed response of the failure path: no `sources` field at all. */
  const Apology: EditorResponse := EditorResponse(ApologyText, Neutral, None)

  /** `getFeedback` once the backend call has produced its outcome. The result is
      always a well-formed response with non-empty text. A failure yields the fixed
      apology with no sources; a reply keeps its own text in its original case (or
      the neutral placeholder when the text is missing or empty), carries the
      sentiment of that text and the citations of its grounding chunks, in order. */
  function GetFeedback(outcome: Outcome): (r: EditorResponse)
    ensures r.text != ""
    ensures outcome.Failed? ==> r == EditorResponse(ApologyText, Neutral, None)
    ensures outcome.Replied? ==> r.sentiment == Classify(r.text) && r.sources.Some?
    ensures outcome.Replied? && outcome.reply.text.Some? && outcome.reply.text.value != "" ==>
              r.text == outcome.reply.text.value
    ensures outcome.Replied? && (outcome.reply.text.None? || outcome.reply.text.value == "") ==>
              r.text == Placeholder && r.sentiment == Neutral
    ensures outcome.Replied? ==> r.sources == Some(Sources(outcome.reply))
  {
    match outcome
    case Failed => Apology
    case Replied(reply) =>
      PlaceholderIsNeutral();
      var text := OrElse(reply.text, Placeholder);
      EditorResponse(text, Classify(text), Some(Sources(reply)))
  }

  /** A failure is told apart from a reply without citations: only the failure
      response lacks the `sources` field. */
  lemma FailureHasNoSourcesField(reply: Reply)
    ensures GetFeedback(Failed).sources.None?
    ensures GetFeedback(Replied(reply)).sources.Some?
    ensures GetFeedback(Failed) != GetFeedback(Replied(reply))
  {
  }

  /** The citation defaults: a chunk without web data, or with empty fields, is shown
      as "Review Source" linking to "#". */
  lemma SourceDefaults(c: Chunk)
    ensures c.web.None? ==> SourceOf(c) == Source("Review Source", "#")
    ensures c.web.Some? && c.web.value.title.Some? && c.web.value.title.value != "" ==>
              SourceOf(c).title == c.web.value.title.value
    ensures c.web.Some? && (c.web.value.title.None? || c.web.value.title.value == "") ==>
              SourceOf(c).title == "Review Source"
    ensures c.web.Some? && c.web.value.uri.Some? && c.web.value.uri.value != "" ==>
              SourceOf(c).uri == c.web.value.uri.value
    ensures c.web.Some? && (c.web.value.uri.None? || c.web.value.uri.value == "") ==>
              SourceOf(c).uri == "#"
  {
  }

  /** Worked examples of the classifier. */
  lemma ClassifyMasterpiece()
    ensures Classify("An absolute masterpiece.") == Positive
  {
    assert "An absolute masterpiece." == "An absolute " + "masterpiece" + ".";
    PositiveInContext("An absolute ", "masterpiece", ".");
  }

  /** Both classes occur; the positive keyword takes precedence. */
  lemma ClassifyBothClasses()
    ensures Classify("A mediocre masterpiece") == Positive
  {
    var t := "A mediocre masterpiece";
    assert t == "A " + "mediocre" + " masterpiece";
    LowerAroundKeyword("A ", "mediocre", " masterpiece");
    assert Contains(LowerStr(t), CriticalKeywords[1]);
    assert t == "A mediocre " + "masterpiece" + "";
    LowerAroundKeyword("A mediocre ", "masterpiece", "");
    assert Contains(LowerStr(t), PositiveKeywords[0]);
    PositiveWins(t);
  }

  lemma ClassifyBrilliantly()
    ensures Classify("Brilliantly") == Positive
  {
    assert "brilliantly" == "" + "brilliant" + "ly";
    PositiveInContext("", "brilliant", "ly");
    ClassifyIgnoresCase("Brilliantly", "brilliantly");
  }

  lemma ClassifyUnavoidable()
    ensures Classify("Unavoidable") == Critical
  {
    UnavoidableLacks();
    NoPositiveKeyword(LowerStr("Unavoidable"), 'm', 'r', 'm');
    assert "Unavoidable" == "Un" + "avoid" + "able";
    CriticalInContext("Un", "avoid", "able");
  }

  lemma UnavoidableLacks()
    ensures 'm' !in LowerStr("Unavoidable") && 'r' !in LowerStr("Unavoidable")
  {
    LowerStrAbsent("Unavoidable", 'm');
    LowerStrAbsent("Unavoidable", 'r');
  }

  lemma TediousLacks()
    ensures 'p' !in LowerStr("Tedious and mediocre.")
    ensures 'b' !in LowerStr("Tedious and mediocre.")
    ensures '-' !in LowerStr("Tedious and mediocre.")
  {
    LowerStrAbsent("Tedious and mediocre.", 'p');
    LowerStrAbsent("Tedious and mediocre.", 'b');
    LowerStrAbsent("Tedious and mediocre.", '-');
  }

  lemma ClassifyTedious()
    ensures Classify("Tedious and mediocre.") == Critical
  {
    TediousLacks();
    NoPositiveKeyword(LowerStr("Tedious and mediocre."), 'p', 'b', '-');
    assert "Tedious and mediocre." == "Tedious and " + "mediocre" + ".";
    CriticalInContext("Tedious and ", "mediocre", ".");
  }

  lemma FineLacksMb()
    ensures 'm' !in LowerStr("It was fine.") && 'b' !in LowerStr("It was fine.")
  {
    LowerStrAbsent("It was fine.", 'm');
    LowerStrAbsent("It was fine.", 'b');
  }

  lemma FineLacksDrv()
    ensures 'd' !in LowerStr("It was fine.") && 'r' !in LowerStr("It was fine.")
    ensures 'v' !in LowerStr("It was fine.")
  {
    LowerStrAbsent("It was fine.", 'd');
    LowerStrAbsent("It was fine.", 'r');
    LowerStrAbsent("It was fine.", 'v');
  }

  lemma ClassifyFine()
    ensures Classify("It was fine.") == Neutral
  {
    var lower := LowerStr("It was fine.");
    FineLacksMb();
    FineLacksDrv();
    NoPositiveKeyword(lower, 'm', 'b', 'm');
    NoCriticalKeyword(lower, 'd', 'm', 'r', 'v');
    ClassifySpec("It was fine.");
    HasAnyConcat(lower, PositiveKeywords, CriticalKeywords);
  }
}
