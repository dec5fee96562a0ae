/**
 * What each phase of a mapper run leaves in the mapper's dictionaries, and
 * what a whole `KoMapper.run` or `CompMapper.run` adds up to, stated on
 * values. The mapper classes prove their loops against these functions.
 */
module Phases {

  import opened Wrappers
  import opened KeggApi
  import opened Pool
  import opened Merging
  import opened Linking

  /** Pathway id to the lines of its HTML map. */
  type Pages = map<Id, seq<string>>

  /** The dictionaries every mapper fills. */
  datatype Tables = Tables(reactdet: Details, pathdet: Details, compdet: Details,
                           pathreact: LinkMap, pathcomp: LinkMap, pathmap: Pages)

  /** The dictionaries of a fresh mapper. */
  const NoTables: Tables := Tables(map[], map[], map[], map[], map[], map[])

  /** `getHTMLColoredPathway(path, [], [])`: the map page with nothing
      colored. */
  const MapPage: Endpoint := ColoredHtml([], [])

  // ---------------------------------------------------------------------
  // The phases of BaseMapper

  /** `getReactDetails`: the title of every known reaction not avoided. */
  function ReactDetails(t: Tables, avoid: seq<Id>, remote: Remote): Tables
  {
    t.(reactdet := Override(t.reactdet, t.reactdet.Keys, avoid, Hits(remote, Btit), AsTitle))
  }

  /** `getPathDetails`: the title of every known pathway not avoided. */
  function PathDetails(t: Tables, avoid: seq<Id>, remote: Remote): Tables
  {
    t.(pathdet := Override(t.pathdet, t.pathdet.Keys, avoid, Hits(remote, Btit), AsTitle))
  }

  /** `getMapsDetails`: the HTML map of every known pathway not avoided. */
  function MapsDetails(t: Tables, avoid: seq<Id>, remote: Remote): Tables
  {
    t.(pathmap := Override(t.pathmap, t.pathdet.Keys, avoid, Hits(remote, MapPage), MapOf))
  }

  /** `getCompDetails`: the title of every known compound not avoided. */
  function CompDetails(t: Tables, avoid: seq<Id>, remote: Remote): Tables
  {
    t.(compdet := Override(t.compdet, t.compdet.Keys, avoid, Hits(remote, Btit), AsTitle))
  }

  /** `getPathReactions`: the reactions of every known pathway, each new
      reaction with a placeholder. No id is avoided here. */
  function PathReactions(t: Tables, remote: Remote): Tables
  {
    var l := LinkClosed(Linked(t.pathreact, t.reactdet), t.pathdet.Keys, Hits(remote, ReactionsByPathway));
    t.(pathreact := l.links, reactdet := l.det)
  }

  /** `getPathCompounds`: the compounds of every known pathway, each new
      compound with a placeholder. */
  function PathCompounds(t: Tables, remote: Remote): Tables
  {
    var l := LinkClosed(Linked(t.pathcomp, t.compdet), t.pathdet.Keys, Hits(remote, CompoundsByPathway));
    t.(pathcomp := l.links, compdet := l.det)
  }

  /** The two discovery phases over the known pathways, in run order. */
  function PathContents(t: Tables, remote: Remote): Tables
  {
    PathCompounds(PathReactions(t, remote), remote)
  }

  /** The four detail phases that end both runs, in run order. */
  function DetailPhases(t: Tables, avoid: seq<Id>, remote: Remote): Tables
  {
    CompDetails(ReactDetails(MapsDetails(PathDetails(t, avoid, remote), avoid, remote), avoid, remote), avoid, remote)
  }

  // ---------------------------------------------------------------------
  // KoMapper and CompMapper

  /** The dictionaries of a KoMapper: the shared ones and its own. */
  datatype KoTables = KoTables(base: Tables, kodet: Details, koreact: LinkMap, reactpath: LinkMap)

  const NoKoTables: KoTables := KoTables(NoTables, map[], map[], map[])

  /** `KoMapper.getKOdet`: the title of every KO of the list not avoided. */
  function KoDetails(k: KoTables, ko: seq<Id>, avoid: seq<Id>, remote: Remote): KoTables
  {
    k.(kodet := Override(k.kodet, SetOf(ko), avoid, Hits(remote, Btit), AsTitle))
  }

  /** `KoMapper.getReactions` over the chunks `get_span` cut the KO list
      into: the 'original' reactions of the first occurrences in each chunk,
      chunk after chunk, each new reaction with a placeholder. */
  function KoReactions(k: KoTables, chunks: seq<seq<Id>>, remote: Remote): KoTables
  {
    var l := AddAll(Linked(k.koreact, k.base.reactdet), DedupEach(chunks), Hits(remote, LinkdbReaction));
    k.(koreact := l.links, base := k.base.(reactdet := l.det))
  }

  /** `KoMapper.getPathways`: the pathways of every known reaction, each new
      pathway with a placeholder. */
  function KoPathways(k: KoTables, remote: Remote): KoTables
  {
    var l := LinkClosed(Linked(k.reactpath, k.base.pathdet), k.base.reactdet.Keys, Hits(remote, PathwaysByReactions));
    k.(reactpath := l.links, base := k.base.(pathdet := l.det))
  }

  /** The discovery part of `KoMapper.run`: getReactions, getPathways,
      getPathReactions, getPathCompounds. */
  function KoDiscovery(k: KoTables, chunks: seq<seq<Id>>, remote: Remote): KoTables
  {
    var found := KoPathways(KoReactions(k, chunks, remote), remote);
    found.(base := PathContents(found.base, remote))
  }

  /** `KoMapper.run` once connected: the discovery part, then getKOdet,
      getPathDetails, getMapsDetails, getReactDetails, getCompDetails. */
  function KoRun(k: KoTables, ko: seq<Id>, chunks: seq<seq<Id>>, avoid: seq<Id>, remote: Remote): KoTables
  {
    var known := KoDetails(KoDiscovery(k, chunks, remote), ko, avoid, remote);
    known.(base := DetailPhases(known.base, avoid, remote))
  }

  /** The dictionaries of a CompMapper. */
  datatype CompTables = CompTables(base: Tables, comppath: LinkMap)

  const NoCompTables: CompTables := CompTables(NoTables, map[])

  /** `CompMapper.getPathways` over the chunks `get_span` cut the compound
      list into: the pathways of the first occurrences in each chunk, chunk
      after chunk, each new pathway with a placeholder. */
  function CompPathways(c: CompTables, chunks: seq<seq<Id>>, remote: Remote): CompTables
  {
    var l := AddAll(Linked(c.comppath, c.base.pathdet), DedupEach(chunks), Hits(remote, PathwaysByCompounds));
    c.(comppath := l.links, base := c.base.(pathdet := l.det))
  }

  /** `CompMapper.run` once connected: getPathways, getPathReactions,
      getPathCompounds, getPathDetails, getMapsDetails, getReactDetails,
      getCompDetails. */
  function CompRun(c: CompTables, chunks: seq<seq<Id>>, avoid: seq<Id>, remote: Remote): CompTables
  {
    var found := CompPathways(c, chunks, remote);
    found.(base := DetailPhases(PathContents(found.base, remote), avoid, remote))
  }

  // ---------------------------------------------------------------------
  // The output object

  /** `KeggDetails`: every field starts as None and is set by `setDetails`,
      `setLinks` and `setMaps`. */
  datatype KeggDetails = KeggDetails(ko: Option<Details>, react: Option<Details>, comp: Option<Details>,
                                     path: Option<Details>, koreact: Option<LinkMap>, comppath: Option<LinkMap>,
                                     pathreact: Option<LinkMap>, pathcomp: Option<LinkMap>, pathmaps: Option<Pages>)

  /** The result a KoMapper crafts: it has no compound-to-pathway links. */
  function KoResult(k: KoTables): KeggDetails
  {
    KeggDetails(Some(k.kodet), Some(k.base.reactdet), Some(k.base.compdet), Some(k.base.pathdet),
                Some(k.koreact), None, Some(k.base.pathreact), Some(k.base.pathcomp), Some(k.base.pathmap))
  }

  /** The result a CompMapper crafts: it has no KO details nor KO links. */
  function CompResult(c: CompTables): KeggDetails
  {
    KeggDetails(None, Some(c.base.reactdet), Some(c.base.compdet), Some(c.base.pathdet),
                None, Some(c.comppath), Some(c.base.pathreact), Some(c.base.pathcomp), Some(c.base.pathmap))
  }

}
