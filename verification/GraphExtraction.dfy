/** What a chunk says about entities and their relationships: the filtering of a language
    model's answer, and the cache that gives both questions about a chunk one answer. */
module GraphExtraction {
  import opened Options
  import opened Records
  import opened Provenance
  import opened GraphStore
  import Text

  /** The entries of a decoded answer. */
  datatype RawEntity = RawEntity(name: Option<string>, entityType: Option<string>, confidence: Option<real>)
  datatype RawLink = RawLink(
    source: Option<string>, target: Option<string>, linkType: Option<string>, confidence: Option<real>)
  datatype Response = Response(entities: seq<RawEntity>, links: seq<RawLink>)

  /** A chunk; `response` is what the language model answers if it is asked about the chunk now
      (`None` when the call or the decoding raises), `metadata` what the metadata would give
      instead, `hyperedges` what the hyperedge extractor finds. */
  datatype ChunkInput = ChunkInput(
    chunkId: Id, documentId: Id, title: Option<string>, wikilinks: seq<string>, confidence: real,
    response: Option<Response>, metadata: Metadata, hyperedges: seq<HyperedgeCandidate>)

  datatype Metadata = Metadata(entities: seq<(string, string, real)>, links: seq<(string, string, string, real)>)

  datatype Extraction = Extraction(parsed: bool, entities: seq<Candidate>, links: seq<LinkCandidate>)

  /** `str` of a UUID. */
  type Show = Id -> string

  ghost function ChunkProvenance(show: Show, chunk: ChunkInput): Provenance {
    map["chunk_id" := One(show(chunk.chunkId)), "document_id" := One(show(chunk.documentId))]
  }

  // ---------------------------------------------------------------- names

  ghost predicate HasName(lower: Lower, entities: seq<Candidate>, n: string) {
    exists c :: c in entities && Normalize(lower, c.name) == n
  }

  /** Both ends of a relationship are among the entities. */
  ghost predicate EndsKnown(lower: Lower, entities: seq<Candidate>, l: LinkCandidate) {
    HasName(lower, entities, Normalize(lower, l.source)) && HasName(lower, entities, Normalize(lower, l.target))
  }

  /** Names that agree in lower case agree when normalized. */
  lemma SameLowerSameName(lower: Lower, a: string, b: string)
    requires Text.Trimmed(a) && Text.Trimmed(b) && lower(a) == lower(b)
    ensures Normalize(lower, a) == Normalize(lower, b)
  {
    Text.StripOfTrimmed(a);
    Text.StripOfTrimmed(b);
  }

  // ---------------------------------------------------------------- parsing an answer

  /** The entry of an answer gives this entity: its trimmed name, its type, TERM when it has none,
      and its confidence, the chunk's when it has none. */
  ghost predicate GivesEntity(r: RawEntity, confidence: real, p: Provenance, c: Candidate) {
    && r.name.Some? && c.name == Text.Strip(r.name.value)
    && (if r.entityType.Some? then c.entityType == r.entityType.value else c.entityType == "TERM")
    && (if r.confidence.Some? then c.confidence == r.confidence.value else c.confidence == confidence)
    && c.provenance == p
  }

  /** The entry of an answer gives this relationship, from its trimmed source to its trimmed
      target. */
  ghost predicate GivesLink(r: RawLink, confidence: real, p: Provenance, l: LinkCandidate) {
    && r.source.Some? && l.source == Text.Strip(r.source.value)
    && r.target.Some? && l.target == Text.Strip(r.target.value)
    && (if r.linkType.Some? then l.linkType == r.linkType.value else l.linkType == "RELATED_TO")
    && (if r.confidence.Some? then l.confidence == r.confidence.value else l.confidence == confidence)
    && l.provenance == p
  }

  ghost function EntityOf(r: RawEntity, confidence: real, p: Provenance): Candidate {
    Candidate(Text.Strip(OrElse(r.name, "")), OrElse(r.entityType, "TERM"), OrElse(r.confidence, confidence), p)
  }

  ghost function LinkOf(r: RawLink, confidence: real, p: Provenance): LinkCandidate {
    LinkCandidate(Text.Strip(OrElse(r.source, "")), Text.Strip(OrElse(r.target, "")),
                  OrElse(r.linkType, "RELATED_TO"), OrElse(r.confidence, confidence), p)
  }

  lemma EntityOfGives(r: RawEntity, confidence: real, p: Provenance, c: Candidate)
    requires c.name != ""
    ensures c == EntityOf(r, confidence, p) <==> GivesEntity(r, confidence, p, c)
  {
    Text.StripOfTrimmed("");
  }

  lemma LinkOfGives(r: RawLink, confidence: real, p: Provenance, l: LinkCandidate)
    requires l.source != "" && l.target != ""
    ensures l == LinkOf(r, confidence, p) <==> GivesLink(r, confidence, p, l)
  {
    Text.StripOfTrimmed("");
  }

  /** The named entities of sufficient confidence, in order. */
  ghost function KeptEntities(raw: seq<RawEntity>, least: real, confidence: real, p: Provenance): seq<Candidate> {
    if raw == [] then []
    else
      var c := EntityOf(raw[|raw| - 1], confidence, p);
      KeptEntities(raw[..|raw| - 1], least, confidence, p) + if c.name != "" && c.confidence >= least then [c] else []
  }

  ghost predicate LowerName(lower: Lower, entities: seq<Candidate>, n: string) {
    exists c :: c in entities && lower(c.name) == n
  }

  ghost predicate KeepsLink(lower: Lower, entities: seq<Candidate>, least: real, l: LinkCandidate) {
    && l.source != "" && l.target != "" && l.confidence >= least
    && LowerName(lower, entities, lower(l.source)) && LowerName(lower, entities, lower(l.target))
  }

  /** The relationships of sufficient confidence between kept entities, in order. */
  ghost function KeptLinks(lower: Lower, raw: seq<RawLink>, entities: seq<Candidate>, least: real, confidence: real,
                           p: Provenance): seq<LinkCandidate>
  {
    if raw == [] then []
    else
      var l := LinkOf(raw[|raw| - 1], confidence, p);
      KeptLinks(lower, raw[..|raw| - 1], entities, least, confidence, p)
      + if KeepsLink(lower, entities, least, l) then [l] else []
  }

  /** Exactly the named entities of sufficient confidence are kept. */
  lemma {:induction false} KeptEntitiesAre(raw: seq<RawEntity>, least: real, confidence: real, p: Provenance,
                                           c: Candidate)
    ensures c in KeptEntities(raw, least, confidence, p)
            <==> c.name != "" && c.confidence >= least && exists r :: r in raw && GivesEntity(r, confidence, p, c)
  {
    hide EntityOf, GivesEntity;
    if raw != [] {
      var init, last := raw[..|raw| - 1], raw[|raw| - 1];
      KeptEntitiesAre(init, least, confidence, p, c);
      assert raw == init + [last];
      if c.name != "" { EntityOfGives(last, confidence, p, c); }
    }
  }

  /** Exactly the relationships of sufficient confidence between kept entities are kept. */
  lemma {:induction false} KeptLinksAre(lower: Lower, raw: seq<RawLink>, entities: seq<Candidate>, least: real,
                                        confidence: real, p: Provenance, l: LinkCandidate)
    ensures l in KeptLinks(lower, raw, entities, least, confidence, p)
            <==> KeepsLink(lower, entities, least, l) && exists r :: r in raw && GivesLink(r, confidence, p, l)
  {
    hide LinkOf, GivesLink, LowerName;
    if raw != [] {
      var init, last := raw[..|raw| - 1], raw[|raw| - 1];
      KeptLinksAre(lower, init, entities, least, confidence, p, l);
      assert raw == init + [last];
      if l.source != "" && l.target != "" { LinkOfGives(last, confidence, p, l); }
    }
  }

  method ParseEntities(raw: seq<RawEntity>, least: real, confidence: real, p: Provenance)
    returns (entities: seq<Candidate>)
    ensures entities == KeptEntities(raw, least, confidence, p)
  {
    hide Text.Strip;
    entities := [];
    for i := 0 to |raw|
      invariant entities == KeptEntities(raw[..i], least, confidence, p)
    {
      var r := raw[i];
      var name := Text.Strip(if r.name.Some? then r.name.value else "");
      var own := if r.confidence.Some? then r.confidence.value else confidence;
      assert raw[..i + 1][..i] == raw[..i];
      if name != "" && own >= least {
        entities := entities + [Candidate(name, if r.entityType.Some? then r.entityType.value else "TERM", own, p)];
      }
    }
    assert raw[..|raw|] == raw;
  }

  method ParseLinks(lower: Lower, raw: seq<RawLink>, entities: seq<Candidate>, least: real, confidence: real,
                    p: Provenance)
    returns (links: seq<LinkCandidate>)
    ensures links == KeptLinks(lower, raw, entities, least, confidence, p)
  {
    hide Text.Strip;
    var names := set c | c in entities :: lower(c.name);
    assert forall n :: n in names <==> LowerName(lower, entities, n);
    hide LowerName;
    links := [];
    for i := 0 to |raw|
      invariant links == KeptLinks(lower, raw[..i], entities, least, confidence, p)
    {
      var r := raw[i];
      var source := Text.Strip(if r.source.Some? then r.source.value else "");
      var target := Text.Strip(if r.target.Some? then r.target.value else "");
      var own := if r.confidence.Some? then r.confidence.value else confidence;
      assert raw[..i + 1][..i] == raw[..i];
      if source != "" && target != "" && own >= least && lower(source) in names && lower(target) in names {
        var linkType := if r.linkType.Some? then r.linkType.value else "RELATED_TO";
        links := links + [LinkCandidate(source, target, linkType, own, p)];
      }
    }
    assert raw[..|raw|] == raw;
  }

  /** What parsing an answer gives. */
  ghost function Parsed(lower: Lower, response: Response, least: real, confidence: real, p: Provenance): Extraction {
    var entities := KeptEntities(response.entities, least, confidence, p);
    Extraction(true, entities, KeptLinks(lower, response.links, entities, least, confidence, p))
  }

  /** `_parse_response` after the answer was decoded. */
  method ParseResponse(lower: Lower, response: Response, least: real, confidence: real, p: Provenance)
    returns (x: Extraction)
    ensures x == Parsed(lower, response, least, confidence, p)
  {
    var entities := ParseEntities(response.entities, least, confidence, p);
    var links := ParseLinks(lower, response.links, entities, least, confidence, p);
    x := Extraction(true, entities, links);
  }

  /** Every relationship that parsing keeps is between entities that it keeps. */
  lemma KeptLinksAreKnown(lower: Lower, response: Response, least: real, confidence: real, p: Provenance,
                          l: LinkCandidate)
    requires l in Parsed(lower, response, least, confidence, p).links
    ensures EndsKnown(lower, Parsed(lower, response, least, confidence, p).entities, l)
  {
    hide Normalize, KeptEntities, KeptLinks;
    var entities := Parsed(lower, response, least, confidence, p).entities;
    KeptLinksAre(lower, response.links, entities, least, confidence, p, l);
    KeptName(lower, response, least, confidence, p, l.source);
    KeptName(lower, response, least, confidence, p, l.target);
  }

  lemma KeptName(lower: Lower, response: Response, least: real, confidence: real, p: Provenance, name: string)
    requires LowerName(lower, KeptEntities(response.entities, least, confidence, p), lower(name)) && Text.Trimmed(name)
    ensures HasName(lower, KeptEntities(response.entities, least, confidence, p), Normalize(lower, name))
  {
    hide KeptEntities;
    var entities := KeptEntities(response.entities, least, confidence, p);
    var c :| c in entities && lower(c.name) == lower(name);
    KeptEntitiesAre(response.entities, least, confidence, p, c);
    SameLowerSameName(lower, c.name, name);
    assert Normalize(lower, c.name) == Normalize(lower, name);
  }

  // ---------------------------------------------------------------- the extractor

  /** An extraction with one scalar provenance for everything in it, whose relationships, if it
      was parsed from an answer, are between its entities. */
  ghost predicate SoundExtraction(lower: Lower, x: Extraction) {
    && (forall c | c in x.entities :: Scalar(c.provenance))
    && (forall l | l in x.links :: Scalar(l.provenance))
    && (forall c, d | c in x.entities && d in x.entities :: c.provenance == d.provenance)
    && (x.parsed ==> forall l | l in x.links :: EndsKnown(lower, x.entities, l))
  }

  ghost function FromMetadata(m: Metadata, p: Provenance): Extraction {
    Extraction(false,
               seq(|m.entities|, i requires 0 <= i < |m.entities| =>
                 Candidate(m.entities[i].0, m.entities[i].1, m.entities[i].2, p)),
               seq(|m.links|, i requires 0 <= i < |m.links| =>
                 LinkCandidate(m.links[i].0, m.links[i].1, m.links[i].2, m.links[i].3, p)))
  }

  /** What asking about the chunk gives: the parsed answer, or its metadata when there is none. */
  ghost function ExtractionOf(lower: Lower, show: Show, least: real, chunk: ChunkInput): Extraction {
    var p := ChunkProvenance(show, chunk);
    if chunk.response.Some? then Parsed(lower, chunk.response.value, least, chunk.confidence, p)
    else FromMetadata(chunk.metadata, p)
  }

  type Cache = map<Id, Extraction>

  ghost predicate SoundCache(lower: Lower, cache: Cache) {
    forall c | c in cache :: SoundExtraction(lower, cache[c])
  }

  /** The answer about a chunk when these are cached. */
  ghost function Answer(lower: Lower, show: Show, least: real, cache: Cache, chunk: ChunkInput): Extraction {
    if chunk.chunkId in cache then cache[chunk.chunkId] else ExtractionOf(lower, show, least, chunk)
  }

  lemma KeptAreAlike(raw: seq<RawEntity>, least: real, confidence: real, p: Provenance)
    ensures forall c | c in KeptEntities(raw, least, confidence, p) :: c.provenance == p
  {
    hide KeptEntities;
    forall c | c in KeptEntities(raw, least, confidence, p) ensures c.provenance == p {
      KeptEntitiesAre(raw, least, confidence, p, c);
    }
  }

  lemma ParsedIsSound(lower: Lower, response: Response, least: real, confidence: real, p: Provenance)
    requires Scalar(p)
    ensures SoundExtraction(lower, Parsed(lower, response, least, confidence, p))
  {
    hide KeptEntities, KeptLinks, EndsKnown, Scalar, KeepsLink;
    var x := Parsed(lower, response, least, confidence, p);
    KeptAreAlike(response.entities, least, confidence, p);
    forall l | l in x.links ensures l.provenance == p && EndsKnown(lower, x.entities, l) {
      KeptLinksAre(lower, response.links, x.entities, least, confidence, p, l);
      KeptLinksAreKnown(lower, response, least, confidence, p, l);
    }
  }

  lemma ExtractionIsSound(lower: Lower, show: Show, least: real, chunk: ChunkInput)
    ensures SoundExtraction(lower, ExtractionOf(lower, show, least, chunk))
  {
    var p := ChunkProvenance(show, chunk);
    assert Scalar(p);
    hide Scalar, Parsed, EndsKnown;
    if chunk.response.Some? { ParsedIsSound(lower, chunk.response.value, least, chunk.confidence, p); }
  }

  class LLMEntityExtractor {
    const lower: Lower
    const show: Show
    const minConfidence: real
    var cache: Cache

    constructor (lower: Lower, show: Show, minConfidence: real)
      ensures this.lower == lower && this.show == show && this.minConfidence == minConfidence
      ensures Valid() && cache == map[]
    {
      this.lower, this.show, this.minConfidence, cache := lower, show, minConfidence, map[];
    }

    ghost predicate Valid()
      reads this
    {
      SoundCache(lower, cache)
    }

    /** `_get_or_extract`: a chunk is extracted once; every later question gets the same answer. */
    method GetOrExtract(chunk: ChunkInput) returns (x: Extraction)
      requires Valid()
      modifies this`cache
      ensures Valid() && SoundExtraction(lower, x)
      ensures x == Answer(lower, show, minConfidence, old(cache), chunk) && cache == old(cache)[chunk.chunkId := x]
    {
      hide SoundExtraction, ExtractionOf;
      if chunk.chunkId !in cache {
        ExtractionIsSound(lower, show, minConfidence, chunk);
        var extraction := Extract(chunk);
        cache := cache[chunk.chunkId := extraction];
      }
      x := cache[chunk.chunkId];
      assert cache == cache[chunk.chunkId := x];
    }

    /** `_llm_extract`. */
    method Extract(chunk: ChunkInput) returns (x: Extraction)
      ensures x == ExtractionOf(lower, show, minConfidence, chunk)
    {
      hide Parsed;
      var p := map["chunk_id" := One(show(chunk.chunkId)), "document_id" := One(show(chunk.documentId))];
      if chunk.response.Some? {
        x := ParseResponse(lower, chunk.response.value, minConfidence, chunk.confidence, p);
      } else {
        var m := chunk.metadata;
        var entities := seq(|m.entities|, i requires 0 <= i < |m.entities| =>
                              Candidate(m.entities[i].0, m.entities[i].1, m.entities[i].2, p));
        var links := seq(|m.links|, i requires 0 <= i < |m.links| =>
                           LinkCandidate(m.links[i].0, m.links[i].1, m.links[i].2, m.links[i].3, p));
        x := Extraction(false, entities, links);
      }
    }
  }
}
