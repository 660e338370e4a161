/** Building the graph of a list of chunks: entities and relationships chunk by chunk, then
    links between documents, then hyperedges. What is returned is closed, and nothing that an
    answer related is lost. */
module GraphBuilding {
  import opened Records
  import opened Provenance
  import opened GraphStore
  import opened EntityMerging
  import opened GraphExtraction

  /** The dictionaries a build fills: records by name and type, by name alone, and what it will
      return, by id. */
  datatype Index = Index(
    byName: map<Key, Entity>, byNorm: map<string, Entity>, byId: map<Id, Entity>, links: map<Id, Link>)

  const EMPTY_INDEX := Index(map[], map[], map[], map[])

  ghost function EntityKey(e: Entity): Key {
    (e.normalizedName, e.entityType)
  }

  // ---------------------------------------------------------------- the dictionaries agree

  /** The graph holds a record with this one's key and id. */
  ghost predicate Stored(g: Graph, e: Entity) {
    EntityKey(e) in g.entities && g.entities[EntityKey(e)].id == e.id
  }

  ghost predicate NamesAgree(g: Graph, x: Index) {
    && (forall i | i in x.byId :: x.byId[i].id == i && Stored(g, x.byId[i]))
    && (forall k | k in x.byName :: x.byName[k].id in x.byId && EntityKey(x.byName[k]) == k && Stored(g, x.byName[k]))
    && (forall n | n in x.byNorm ::
          x.byNorm[n].id in x.byId && x.byNorm[n].normalizedName == n && Stored(g, x.byNorm[n]))
  }

  /** A relationship to return joins entities to return. */
  ghost predicate LinksClosed(x: Index) {
    forall r | r in x.links :: x.links[r].source in x.byId && x.links[r].target in x.byId
  }

  ghost predicate LinksStored(g: Graph, x: Index) {
    forall r | r in x.links ::
      && x.links[r].id == r
      && var key := (x.links[r].source, x.links[r].target, x.links[r].linkType);
         key in g.links && g.links[key] == x.links[r]
  }

  ghost predicate Agree(g: Graph, x: Index) {
    ValidGraph(g) && NamesAgree(g, x) && LinksClosed(x) && LinksStored(g, x)
  }

  // ---------------------------------------------------------------- nothing gets lost

  /** Everything of `x` is still in `y`, under the same names, with no less confidence. */
  ghost predicate Grows(x: Index, y: Index) {
    && x.byName.Keys <= y.byName.Keys && x.byNorm.Keys <= y.byNorm.Keys
    && (forall i | i in x.byId :: i in y.byId && EntityKey(y.byId[i]) == EntityKey(x.byId[i]))
    && (forall r | r in x.links ::
          && r in y.links && y.links[r].source == x.links[r].source && y.links[r].target == x.links[r].target
          && y.links[r].linkType == x.links[r].linkType && y.links[r].confidence >= x.links[r].confidence)
  }

  lemma GrowsFurther(x: Index, y: Index, z: Index)
    requires Grows(x, y) && Grows(y, z)
    ensures Grows(x, z)
  {
  }

  lemma GrowsFromItself(x: Index)
    ensures Grows(x, x)
  {
  }

  /** Some relationship to return joins entities of these names with this type and at least
      this confidence. */
  ghost predicate Linked(x: Index, source: string, target: string, linkType: string, confidence: real) {
    exists r :: && r in x.links && x.links[r].linkType == linkType && x.links[r].confidence >= confidence
                && x.links[r].source in x.byId && x.byId[x.links[r].source].normalizedName == source
                && x.links[r].target in x.byId && x.byId[x.links[r].target].normalizedName == target
  }

  /** Some relationship to return joins the entities with these ids. */
  ghost predicate Joins(x: Index, source: Id, target: Id, linkType: string, confidence: real) {
    exists r :: && r in x.links && x.links[r].source == source && x.links[r].target == target
                && x.links[r].linkType == linkType && x.links[r].confidence >= confidence
  }

  ghost predicate IsDocument(x: Index, i: Id, name: string) {
    i in x.byId && x.byId[i].normalizedName == name && x.byId[i].entityType == "DOCUMENT"
  }

  /** Some relationship to return joins documents of these names so. */
  ghost predicate DocumentsJoined(x: Index, source: string, target: string, linkType: string, confidence: real) {
    exists s, t :: IsDocument(x, s, source) && IsDocument(x, t, target) && Joins(x, s, t, linkType, confidence)
  }

  lemma StaysJoined(x: Index, y: Index, source: string, target: string, linkType: string, confidence: real)
    requires Grows(x, y) && DocumentsJoined(x, source, target, linkType, confidence)
    ensures DocumentsJoined(y, source, target, linkType, confidence)
  {
    var s, t :| IsDocument(x, s, source) && IsDocument(x, t, target) && Joins(x, s, t, linkType, confidence);
    JoinStays(x, y, s, t, linkType, confidence);
    DocumentStays(x, y, s, source);
    DocumentStays(x, y, t, target);
  }

  lemma DocumentStays(x: Index, y: Index, i: Id, name: string)
    requires Grows(x, y) && IsDocument(x, i, name)
    ensures IsDocument(y, i, name)
  {
  }

  lemma JoinStays(x: Index, y: Index, source: Id, target: Id, linkType: string, confidence: real)
    requires Grows(x, y) && Joins(x, source, target, linkType, confidence)
    ensures Joins(y, source, target, linkType, confidence)
  {
    var r :| && r in x.links && x.links[r].source == source && x.links[r].target == target
             && x.links[r].linkType == linkType && x.links[r].confidence >= confidence;
    assert r in y.links;
  }

  lemma StaysLinked(x: Index, y: Index, source: string, target: string, linkType: string, confidence: real)
    requires Grows(x, y) && Linked(x, source, target, linkType, confidence)
    ensures Linked(y, source, target, linkType, confidence)
  {
    var r :| && r in x.links && x.links[r].linkType == linkType && x.links[r].confidence >= confidence
             && x.links[r].source in x.byId && x.byId[x.links[r].source].normalizedName == source
             && x.links[r].target in x.byId && x.byId[x.links[r].target].normalizedName == target;
    assert r in y.links;
  }

  // ---------------------------------------------------------------- one entity

  ghost function WithEntity(x: Index, e: Entity, named: bool): Index {
    x.(byName := x.byName[EntityKey(e) := e],
       byNorm := if named then x.byNorm[e.normalizedName := e] else x.byNorm,
       byId := x.byId[e.id := e])
  }

  lemma StoredKeysAgree(g: Graph, e: Entity, f: Entity)
    requires ValidGraph(g) && Stored(g, e) && Stored(g, f) && e.id == f.id
    ensures EntityKey(e) == EntityKey(f)
  {
  }

  lemma UpsertStores(g: Graph, lower: Lower, c: Candidate)
    requires ValidGraph(g)
    ensures var after, k := UpsertEntity(g, lower, c), KeyOf(lower, c);
            && ValidGraph(after) && after.links == g.links && after.hyperedges == g.hyperedges
            && k in after.entities && EntityKey(after.entities[k]) == k && Stored(after, after.entities[k])
            && forall e | Stored(g, e) :: Stored(after, e)
  {
    hide Merge, Max, Normalize;
    UpsertEntityKeeps(g, lower, c);
  }

  lemma NamesAgreeWithEntity(g: Graph, after: Graph, x: Index, e: Entity, named: bool)
    requires NamesAgree(g, x) && Stored(after, e) && forall f | Stored(g, f) :: Stored(after, f)
    ensures NamesAgree(after, WithEntity(x, e, named))
  {
    hide Stored;
    assert EntityKey(e).0 == e.normalizedName;
    hide EntityKey;
  }

  lemma GrowsWithEntity(g: Graph, after: Graph, x: Index, e: Entity, named: bool)
    requires NamesAgree(g, x) && Stored(after, e) && (forall f | Stored(g, f) :: Stored(after, f)) && ValidGraph(after)
    ensures Grows(x, WithEntity(x, e, named))
  {
    hide Stored, ValidGraph, EntityKey;
    var y := WithEntity(x, e, named);
    forall i | i in x.byId ensures EntityKey(y.byId[i]) == EntityKey(x.byId[i]) {
      if i == e.id { StoredKeysAgree(after, e, x.byId[i]); }
    }
  }

  lemma EntityAdded(g: Graph, lower: Lower, c: Candidate, x: Index, named: bool)
    requires Agree(g, x)
    ensures var after, k := UpsertEntity(g, lower, c), KeyOf(lower, c);
            && k in after.entities && ValidGraph(after) && EntityKey(after.entities[k]) == k
            && var y := WithEntity(x, after.entities[k], named);
               && Agree(after, y) && Grows(x, y)
               && y.byNorm.Keys == x.byNorm.Keys + (if named then {k.0} else {}) && y.byName.Keys == x.byName.Keys + {k}
  {
    var after, k := UpsertEntity(g, lower, c), KeyOf(lower, c);
    UpsertStores(g, lower, c);
    var e := after.entities[k];
    assert e.normalizedName == k.0;
    hide UpsertEntity, KeyOf, ValidGraph, Stored, NamesAgree, Grows, EntityKey, LinksClosed, LinksStored;
    NamesAgreeWithEntity(g, after, x, e, named);
    GrowsWithEntity(g, after, x, e, named);
    LinksWithEntity(g, after, x, e, named);
    KeysWithEntity(x, e, named);
    hide WithEntity;
  }

  lemma LinksWithEntity(g: Graph, after: Graph, x: Index, e: Entity, named: bool)
    requires LinksClosed(x) && LinksStored(g, x) && after.links == g.links
    ensures LinksClosed(WithEntity(x, e, named)) && LinksStored(after, WithEntity(x, e, named))
  {
  }

  lemma KeysWithEntity(x: Index, e: Entity, named: bool)
    ensures var y := WithEntity(x, e, named);
            && y.byNorm.Keys == x.byNorm.Keys + (if named then {e.normalizedName} else {})
            && y.byName.Keys == x.byName.Keys + {EntityKey(e)}
  {
  }

  // ---------------------------------------------------------------- one relationship

  ghost function WithLink(x: Index, l: Link): Index {
    x.(links := x.links[l.id := l])
  }

  lemma LinkUpserted(g: Graph, source: Id, target: Id, c: LinkCandidate)
    requires ValidGraph(g)
    ensures var after, k := UpsertLink(g, source, target, c), (source, target, c.linkType);
            && ValidGraph(after) && after.entities == g.entities && after.hyperedges == g.hyperedges
            && k in after.links && after.links == g.links[k := after.links[k]]
            && after.links[k].source == source && after.links[k].target == target
            && after.links[k].linkType == c.linkType && after.links[k].confidence >= c.confidence
            && (k in g.links ==>
                  after.links[k].id == g.links[k].id && after.links[k].confidence >= g.links[k].confidence)
            && forall m | m in g.links && g.links[m].id == after.links[k].id :: m == k
  {
    UpsertLinkKeeps(g, source, target, c);
    hide Merge;
    var after, k := UpsertLink(g, source, target, c), (source, target, c.linkType);
    forall m | m in g.links && g.links[m].id == after.links[k].id ensures m == k {
      assert m in after.links;
    }
  }

  lemma StoredWithLink(g: Graph, after: Graph, x: Index, k: LinkKey)
    requires LinksStored(g, x) && k in after.links && after.links == g.links[k := after.links[k]]
    requires after.links[k].source == k.0 && after.links[k].target == k.1 && after.links[k].linkType == k.2
    requires k in g.links ==> after.links[k].id == g.links[k].id
    ensures LinksStored(after, WithLink(x, after.links[k]))
  {
  }

  lemma LinkAdded(g: Graph, x: Index, source: Id, target: Id, c: LinkCandidate)
    requires Agree(g, x) && source in x.byId && target in x.byId
    ensures var after := UpsertLink(g, source, target, c);
            && (source, target, c.linkType) in after.links
            && var y := WithLink(x, after.links[(source, target, c.linkType)]);
               && Agree(after, y) && Grows(x, y) && y.byNorm == x.byNorm && y.byName == x.byName && y.byId == x.byId
               && Linked(y, x.byId[source].normalizedName, x.byId[target].normalizedName, c.linkType, c.confidence)
               && Joins(y, source, target, c.linkType, c.confidence)
  {
    var after, k := UpsertLink(g, source, target, c), (source, target, c.linkType);
    LinkUpserted(g, source, target, c);
    hide UpsertLink, ValidGraph, LinksStored, LinksClosed, NamesAgree, Grows, Linked, Joins;
    StoredWithLink(g, after, x, k);
    LinkGrows(g, after, x, k);
    var y := WithLink(x, after.links[k]);
    NamesWithLink(g, after, x, after.links[k]);
    LinkIsLinked(x, after.links[k], c.confidence);
  }

  lemma NamesWithLink(g: Graph, after: Graph, x: Index, l: Link)
    requires NamesAgree(g, x) && LinksClosed(x) && after.entities == g.entities
    requires l.source in x.byId && l.target in x.byId
    ensures NamesAgree(after, WithLink(x, l)) && LinksClosed(WithLink(x, l))
  {
  }

  lemma LinkIsLinked(x: Index, l: Link, confidence: real)
    requires l.source in x.byId && l.target in x.byId && l.confidence >= confidence
    ensures Linked(WithLink(x, l), x.byId[l.source].normalizedName, x.byId[l.target].normalizedName, l.linkType,
                   confidence)
    ensures Joins(WithLink(x, l), l.source, l.target, l.linkType, confidence)
  {
    assert WithLink(x, l).links[l.id] == l;
  }

  lemma LinkGrows(g: Graph, after: Graph, x: Index, k: LinkKey)
    requires LinksStored(g, x) && k in after.links
    requires after.links[k].source == k.0 && after.links[k].target == k.1 && after.links[k].linkType == k.2
    requires forall m | m in g.links && g.links[m].id == after.links[k].id :: m == k
    requires k in g.links ==> after.links[k].confidence >= g.links[k].confidence
    ensures Grows(x, WithLink(x, after.links[k]))
  {
  }
}
