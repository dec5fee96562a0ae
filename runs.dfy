/**
 * What a whole mapper run guarantees about the dictionaries it leaves:
 * every listed id has a detail entry, and a run of a fresh mapper leaves
 * each entry's title exactly when the entry is not avoided and its request
 * gave a truthy result, and `None` otherwise.
 */
module Runs {

  import opened Wrappers
  import opened KeggApi
  import opened Pool
  import opened Merging
  import opened Linking
  import opened Phases

  // ---------------------------------------------------------------------
  // Every listed id has a detail entry

  /** Every id some entry lists is a key of the detail dictionary. */
  predicate Listed(links: LinkMap, det: Details)
  {
    forall k, t :: k in links && t in links[k] ==> t in det
  }

  /** The shared dictionaries, each link dictionary with the detail
      dictionary of the ids it lists. */
  predicate TablesListed(t: Tables)
  {
    Listed(t.pathreact, t.reactdet) && Listed(t.pathcomp, t.compdet)
  }

  predicate KoListed(k: KoTables)
  {
    TablesListed(k.base) && Listed(k.koreact, k.base.reactdet) && Listed(k.reactpath, k.base.pathdet)
  }

  predicate CompListed(c: CompTables)
  {
    TablesListed(c.base) && Listed(c.comppath, c.base.pathdet)
  }

  /** A detail dictionary that only gains keys keeps its link dictionary
      listed. */
  lemma ListedGrows(links: LinkMap, det: Details, det': Details)
    requires Listed(links, det) && det.Keys <= det'.Keys
    ensures Listed(links, det')
  {
  }

  /** A discovery phase over distinct ids keeps its link dictionary listed
      and only adds detail keys. */
  lemma LinkClosedListed(l: Linked, ids: set<Id>, hit: Outcome)
    requires Listed(l.links, l.det)
    ensures Listed(LinkClosed(l, ids, hit).links, LinkClosed(l, ids, hit).det)
    ensures l.det.Keys <= LinkClosed(l, ids, hit).det.Keys
  {
    var r := LinkClosed(l, ids, hit);
    forall k, t | k in r.links && t in r.links[k] ensures t in r.det {
      if k in ids && hit(k).Some? {
        assert r.links[k] == Get(l.links, k) + Targets(hit(k).value);
        if t !in Get(l.links, k) {
          assert t in Found(ids, hit);
        }
      }
    }
  }

  /** The same for a discovery phase over a list, chunk by chunk. */
  lemma AddAllKeepsListed(l: Linked, ids: seq<Id>, hit: Outcome)
    requires Listed(l.links, l.det)
    ensures Listed(AddAll(l, ids, hit).links, AddAll(l, ids, hit).det)
    ensures l.det.Keys <= AddAll(l, ids, hit).det.Keys
  {
    AddAllListed(l, ids, hit);
    AddAllGrows(l, ids, hit);
  }

  /** The detail phases change no key and no link. */
  lemma DetailPhasesKeys(t: Tables, avoid: seq<Id>, remote: Remote)
    ensures var r := DetailPhases(t, avoid, remote);
            r.reactdet.Keys == t.reactdet.Keys && r.pathdet.Keys == t.pathdet.Keys &&
            r.compdet.Keys == t.compdet.Keys && r.pathreact == t.pathreact && r.pathcomp == t.pathcomp
  {
    OverrideOwnKeys(t.pathdet, avoid, Hits(remote, Btit), AsTitle);
    OverrideOwnKeys(t.reactdet, avoid, Hits(remote, Btit), AsTitle);
    OverrideOwnKeys(t.compdet, avoid, Hits(remote, Btit), AsTitle);
  }

  /** The discovery phases over the known pathways keep the shared
      dictionaries listed and drop no detail key. */
  lemma PathContentsListed(t: Tables, remote: Remote)
    requires TablesListed(t)
    ensures TablesListed(PathContents(t, remote))
    ensures var r := PathContents(t, remote);
            t.reactdet.Keys <= r.reactdet.Keys && t.compdet.Keys <= r.compdet.Keys && r.pathdet == t.pathdet
  {
    LinkClosedListed(Linked(t.pathreact, t.reactdet), t.pathdet.Keys, Hits(remote, ReactionsByPathway));
    var s := PathReactions(t, remote);
    LinkClosedListed(Linked(s.pathcomp, s.compdet), s.pathdet.Keys, Hits(remote, CompoundsByPathway));
  }

  /** A whole KoMapper run keeps every link dictionary listed: every
      reaction, pathway and compound it lists has a detail entry. */
  lemma {:induction false} KoRunListed(k: KoTables, ko: seq<Id>, chunks: seq<seq<Id>>, avoid: seq<Id>, remote: Remote)
    requires KoListed(k)
    ensures KoListed(KoRun(k, ko, chunks, avoid, remote))
  {
    var k1 := KoReactions(k, chunks, remote);
    AddAllKeepsListed(Linked(k.koreact, k.base.reactdet), DedupEach(chunks), Hits(remote, LinkdbReaction));
    ListedGrows(k.base.pathreact, k.base.reactdet, k1.base.reactdet);
    assert KoListed(k1);
    var k2 := KoPathways(k1, remote);
    LinkClosedListed(Linked(k1.reactpath, k1.base.pathdet), k1.base.reactdet.Keys, Hits(remote, PathwaysByReactions));
    assert KoListed(k2);
    var t3 := PathContents(k2.base, remote);
    PathContentsListed(k2.base, remote);
    ListedGrows(k2.koreact, k2.base.reactdet, t3.reactdet);
    var k4 := KoDetails(k2.(base := t3), ko, avoid, remote);
    assert KoListed(k4);
    DetailPhasesKeys(k4.base, avoid, remote);
  }

  /** A whole CompMapper run keeps every link dictionary listed. */
  lemma {:induction false} CompRunListed(c: CompTables, chunks: seq<seq<Id>>, avoid: seq<Id>, remote: Remote)
    requires CompListed(c)
    ensures CompListed(CompRun(c, chunks, avoid, remote))
  {
    var c1 := CompPathways(c, chunks, remote);
    AddAllKeepsListed(Linked(c.comppath, c.base.pathdet), DedupEach(chunks), Hits(remote, PathwaysByCompounds));
    assert CompListed(c1);
    var t2 := PathContents(c1.base, remote);
    PathContentsListed(c1.base, remote);
    DetailPhasesKeys(t2, avoid, remote);
  }

  // ---------------------------------------------------------------------
  // A run of a fresh mapper

  /** Every entry is still a placeholder. */
  predicate Pending(d: Details)
  {
    forall k :: k in d ==> d[k] == None
  }

  /** Every entry holds its title, except the avoided ones and those whose
      request failed or came back empty, which are `None`. */
  predicate Settled(d: Details, avoid: seq<Id>, hit: Outcome)
  {
    forall k :: k in d ==> d[k] == if k in avoid then None else hit(k)
  }

  /** The maps fetched: one per known pathway not avoided whose page came
      back, holding that page's map fragment. */
  predicate MapsOf(pm: Pages, paths: Details, avoid: seq<Id>, hit: Outcome)
  {
    (forall k :: k in paths && k !in avoid && hit(k).Some? ==> k in pm) &&
    forall k :: k in pm ==> k in paths && k !in avoid && hit(k).Some? && pm[k] == MapOf(hit(k).value)
  }

  /** The links of a discovery phase from an empty dictionary: an entry per
      handled id whose result lists something, holding that list. */
  predicate LinksFrom(links: LinkMap, ids: set<Id>, hit: Outcome)
  {
    (forall k :: k in ids && Gains(ids, hit, k) ==> k in links) &&
    forall k :: k in links ==> Gains(ids, hit, k) && links[k] == Targets(hit(k).value)
  }

  /** What the shared dictionaries hold at the end of a fresh run. */
  predicate Finished(t: Tables, avoid: seq<Id>, remote: Remote)
  {
    Settled(t.reactdet, avoid, Hits(remote, Btit)) &&
    Settled(t.pathdet, avoid, Hits(remote, Btit)) &&
    Settled(t.compdet, avoid, Hits(remote, Btit)) &&
    MapsOf(t.pathmap, t.pathdet, avoid, Hits(remote, MapPage)) &&
    LinksFrom(t.pathreact, t.pathdet.Keys, Hits(remote, ReactionsByPathway)) &&
    LinksFrom(t.pathcomp, t.pathdet.Keys, Hits(remote, CompoundsByPathway)) &&
    TablesListed(t)
  }

  /** A discovery phase over distinct ids leaves placeholders placeholders. */
  lemma LinkClosedPending(l: Linked, ids: set<Id>, hit: Outcome)
    requires Pending(l.det)
    ensures Pending(LinkClosed(l, ids, hit).det)
  {
  }

  /** So does a discovery phase over a list. */
  lemma AddAllPending(l: Linked, ids: seq<Id>, hit: Outcome)
    requires Pending(l.det)
    ensures Pending(AddAll(l, ids, hit).det)
  {
    AddAllGrows(l, ids, hit);
  }

  /** From an empty link dictionary a discovery phase over distinct ids
      leaves exactly each gaining id's targets. */
  lemma LinksFromEmpty(det: Details, ids: set<Id>, hit: Outcome)
    ensures LinksFrom(LinkClosed(Linked(map[], det), ids, hit).links, ids, hit)
  {
    var r := LinksClosed(map[], ids, hit);
    forall k | k in r ensures Gains(ids, hit, k) && r[k] == Targets(hit(k).value) {
      assert k in (set i | i in ids && Gains(ids, hit, i));
      assert Get(map[], k) + Targets(hit(k).value) == Targets(hit(k).value);
    }
  }

  /** A title phase over placeholders settles every entry. */
  lemma OverrideSettles(d: Details, avoid: seq<Id>, hit: Outcome)
    requires Pending(d)
    ensures Settled(Override(d, d.Keys, avoid, hit, AsTitle), avoid, hit)
    ensures Override(d, d.Keys, avoid, hit, AsTitle).Keys == d.Keys
  {
    OverrideOwnKeys(d, avoid, hit, AsTitle);
  }

  /** The four detail phases over placeholders and no maps finish the
      shared dictionaries. */
  lemma {:induction false} DetailPhasesFinish(t: Tables, avoid: seq<Id>, remote: Remote)
    requires Pending(t.reactdet) && Pending(t.pathdet) && Pending(t.compdet) && t.pathmap == map[]
    requires LinksFrom(t.pathreact, t.pathdet.Keys, Hits(remote, ReactionsByPathway))
    requires LinksFrom(t.pathcomp, t.pathdet.Keys, Hits(remote, CompoundsByPathway))
    requires TablesListed(t)
    ensures Finished(DetailPhases(t, avoid, remote), avoid, remote)
  {
    var r := DetailPhases(t, avoid, remote);
    OverrideSettles(t.pathdet, avoid, Hits(remote, Btit));
    OverrideSettles(t.reactdet, avoid, Hits(remote, Btit));
    OverrideSettles(t.compdet, avoid, Hits(remote, Btit));
    assert r.pathdet.Keys == t.pathdet.Keys;
    assert MapsOf(r.pathmap, r.pathdet, avoid, Hits(remote, MapPage)) by {
      OverrideSpec(map[], t.pathdet.Keys, avoid, Hits(remote, MapPage), MapOf);
    }
  }

  /** The two discovery phases over the pathways, from empty link
      dictionaries and placeholder details. */
  lemma {:induction false} PathContentsFresh(t: Tables, remote: Remote)
    requires Pending(t.reactdet) && Pending(t.compdet) && t.pathreact == map[] && t.pathcomp == map[]
    requires TablesListed(t)
    ensures var r := PathContents(t, remote);
            Pending(r.reactdet) && Pending(r.compdet) && r.pathdet == t.pathdet && r.pathmap == t.pathmap &&
            LinksFrom(r.pathreact, r.pathdet.Keys, Hits(remote, ReactionsByPathway)) &&
            LinksFrom(r.pathcomp, r.pathdet.Keys, Hits(remote, CompoundsByPathway)) &&
            TablesListed(r)
  {
    PathContentsListed(t, remote);
    LinkClosedPending(Linked(t.pathreact, t.reactdet), t.pathdet.Keys, Hits(remote, ReactionsByPathway));
    LinksFromEmpty(t.reactdet, t.pathdet.Keys, Hits(remote, ReactionsByPathway));
    var s := PathReactions(t, remote);
    LinkClosedPending(Linked(s.pathcomp, s.compdet), s.pathdet.Keys, Hits(remote, CompoundsByPathway));
    LinksFromEmpty(s.compdet, s.pathdet.Keys, Hits(remote, CompoundsByPathway));
  }

  /** A run of a fresh KoMapper: every reaction, pathway and compound it
      found holds its title unless it is avoided or its request failed, in
      which case it is `None`; a KO has a title exactly when it is listed,
      not avoided and its request succeeded; a pathway has a map exactly
      when it is not avoided and its page came back; each pathway's
      reactions and compounds are those its request listed; and every
      listed id has a detail entry. */
  lemma {:induction false} KoRunFresh(ko: seq<Id>, chunks: seq<seq<Id>>, avoid: seq<Id>, remote: Remote)
    ensures var r := KoRun(NoKoTables, ko, chunks, avoid, remote);
            Finished(r.base, avoid, remote) && KoListed(r) &&
            (forall k :: k in r.kodet <==> k in ko && k !in avoid && Hit(remote, Btit, k).Some?) &&
            (forall k :: k in r.kodet ==> r.kodet[k] == Hit(remote, Btit, k))
  {
    var k0 := NoKoTables;
    var k1 := KoReactions(k0, chunks, remote);
    AddAllPending(Linked(k0.koreact, k0.base.reactdet), DedupEach(chunks), Hits(remote, LinkdbReaction));
    var k2 := KoPathways(k1, remote);
    LinkClosedPending(Linked(k1.reactpath, k1.base.pathdet), k1.base.reactdet.Keys, Hits(remote, PathwaysByReactions));
    assert TablesListed(k2.base);
    PathContentsFresh(k2.base, remote);
    var t3 := PathContents(k2.base, remote);
    var k4 := KoDetails(k2.(base := t3), ko, avoid, remote);
    DetailPhasesFinish(k4.base, avoid, remote);
    KoRunListed(k0, ko, chunks, avoid, remote);
    OverrideSpec(k0.kodet, SetOf(ko), avoid, Hits(remote, Btit), AsTitle);
  }

  /** A run of a fresh CompMapper: the same guarantees for the shared
      dictionaries, and every pathway a compound led to has a detail
      entry. */
  lemma {:induction false} CompRunFresh(chunks: seq<seq<Id>>, avoid: seq<Id>, remote: Remote)
    ensures var r := CompRun(NoCompTables, chunks, avoid, remote);
            Finished(r.base, avoid, remote) && CompListed(r)
  {
    var c0 := NoCompTables;
    var c1 := CompPathways(c0, chunks, remote);
    AddAllPending(Linked(c0.comppath, c0.base.pathdet), DedupEach(chunks), Hits(remote, PathwaysByCompounds));
    PathContentsFresh(c1.base, remote);
    DetailPhasesFinish(PathContents(c1.base, remote), avoid, remote);
    CompRunListed(c0, chunks, avoid, remote);
  }

  /** An avoided id never gets a title nor a map: it stays a placeholder
      wherever it was found. */
  lemma AvoidedStayPending(t: Tables, avoid: seq<Id>, remote: Remote, k: Id)
    requires Finished(t, avoid, remote) && k in avoid
    ensures k in t.reactdet ==> t.reactdet[k] == None
    ensures k in t.pathdet ==> t.pathdet[k] == None
    ensures k in t.compdet ==> t.compdet[k] == None
    ensures k !in t.pathmap
  {
  }

  /** Every title in a finished dictionary is the reply its request gave. */
  lemma TitlesAreHits(t: Tables, avoid: seq<Id>, remote: Remote, k: Id)
    requires Finished(t, avoid, remote)
    ensures k in t.reactdet && t.reactdet[k].Some? ==> t.reactdet[k] == Hit(remote, Btit, k)
    ensures k in t.pathdet && t.pathdet[k].Some? ==> t.pathdet[k] == Hit(remote, Btit, k)
    ensures k in t.compdet && t.compdet[k].Some? ==> t.compdet[k] == Hit(remote, Btit, k)
  {
  }

  // ---------------------------------------------------------------------
  // Chunking

  /** Over a list without repeats the chunking does not matter: a
      discovery phase chunk by chunk, however `get_span` cut the list, is
      the phase over the list's ids. */
  lemma ChunkingIrrelevant(l: Linked, xs: seq<Id>, chunks: seq<seq<Id>>, w: nat, hit: Outcome)
    requires SpanOf(chunks, xs, w) && Distinct(xs)
    ensures AddAll(l, DedupEach(chunks), hit) == LinkClosed(l, SetOf(xs), hit)
  {
    DedupEachDistinct(chunks);
    AddAllDistinct(l, xs, hit);
  }

  /** A single chunk. */
  lemma OneChunk(c: seq<Id>)
    ensures Flatten([c]) == c && DedupEach([c]) == Dedup(c)
  {
    assert [c][1..] == [];
  }

  /** Two chunks. */
  lemma TwoChunks(a: seq<Id>, b: seq<Id>)
    ensures Flatten([a, b]) == a + b && DedupEach([a, b]) == Dedup(a) + Dedup(b)
  {
    assert [a, b][1..] == [b];
    OneChunk(b);
  }

  /** `[k]` and `[k, k]` both serve `k` once. */
  lemma DedupSame(k: Id)
    ensures Dedup([k]) == [k] && Dedup([k, k]) == [k]
  {
    assert [k][..0] == [];
    assert [k, k][..1] == [k];
  }

  /** The two ways of cutting `[k, k]` into chunks of width 2, and what
      each one serves. */
  lemma TwoCuts(k: Id)
    ensures SpanOf([[k, k]], [k, k], 2) && SpanOf([[k], [k]], [k, k], 2)
    ensures DedupEach([[k, k]]) == [k] && DedupEach([[k], [k]]) == [k, k]
  {
    OneChunk([k, k]);
    TwoChunks([k], [k]);
    DedupSame(k);
  }

  /** Handling `k` once lists its targets once; handling it twice lists
      them twice. */
  lemma OnceTwice(k: Id, t: Id, hit: Outcome)
    requires hit(k) == Some(Items([t]))
    ensures Get(AddAll(Linked(map[], map[]), [k], hit).links, k) == [t]
    ensures Get(AddAll(Linked(map[], map[]), [k, k], hit).links, k) == [t, t]
  {
    var l := Linked(map[], map[]);
    var one := AddOne(l, k, hit);
    assert AddAll(l, [k], hit) == one by {
      assert [k][..0] == [];
    }
    assert Get(one.links, k) == [t];
    assert AddAll(l, [k, k], hit) == AddOne(one, k, hit) by {
      assert [k, k][..1] == [k];
    }
  }

  /** With a repeated id the chunking does matter: `[k, k]` cut as one
      chunk asks for `k` once, cut as two chunks asks twice and lists its
      targets twice. Both cuts meet `get_span`'s contract, so a run is
      stated over the chunks `get_span` returned. */
  lemma ChunkingMatters(k: Id, t: Id, hit: Outcome)
    requires hit(k) == Some(Items([t]))
    ensures SpanOf([[k, k]], [k, k], 2) && SpanOf([[k], [k]], [k, k], 2)
    ensures Get(AddAll(Linked(map[], map[]), DedupEach([[k, k]]), hit).links, k) == [t]
    ensures Get(AddAll(Linked(map[], map[]), DedupEach([[k], [k]]), hit).links, k) == [t, t]
  {
    TwoCuts(k);
    OnceTwice(k, t, hit);
  }
}
