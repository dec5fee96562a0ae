/**
 * BaseMapper, KoMapper and CompMapper: the classes that turn a list of KO or
 * compound ids into KEGG details. Each phase cuts its ids into chunks of the
 * pool's width, runs the chunk on the pool and merges the handlers' results;
 * `run` chains the phases in a fixed order. Inheritance is modelled by
 * composition: a KoMapper or CompMapper holds its BaseMapper part, which
 * holds its BaseKegg part.
 */
module Mappers {

  import opened Wrappers
  import opened KeggApi
  import opened Pool
  import opened Merging
  import opened Linking
  import opened Phases

  class BaseMapper {
    const kegg: BaseKegg
    /** Ids never asked for their details. */
    const avoid: seq<Id>
    var reactdet: Details
    var pathdet: Details
    var pathreact: LinkMap
    var pathcomp: LinkMap
    var pathmap: Pages
    var compdet: Details
    /** The KeggDetails object, once a run finished. */
    var result: Option<KeggDetails>

    /** `BaseMapper(threads, avoid)`: empty dictionaries and no result. */
    constructor (threads: int, avoid: seq<Id>)
      ensures fresh(kegg) && kegg.numThreads == threads && kegg.handlers == [] && kegg.pool == {}
      ensures kegg.substatus == 0 && kegg.maxsubstatus == 0 && kegg.failure == None
      ensures this.avoid == avoid && State() == NoTables && result == None
    {
      kegg := new BaseKegg(threads);
      this.avoid := avoid;
      reactdet, pathdet, compdet := map[], map[], map[];
      pathreact, pathcomp := map[], map[];
      pathmap := map[];
      result := None;
    }

    /** The dictionaries, as a value. */
    function State(): Tables
      reads this`reactdet, this`pathdet, this`compdet, this`pathreact, this`pathcomp, this`pathmap
    {
      Tables(reactdet, pathdet, compdet, pathreact, pathcomp, pathmap)
    }

    // -------------------------------------------------------------------
    // The chunk loops the phases share

    /** One chunk of a title phase: run it on the pool, then store every
        truthy title a handler holds. */
    method TitleChunk(piece: seq<Id>, d: Details, remote: Remote) returns (r: Details)
      requires kegg.Ready() && |piece| <= kegg.numThreads
      modifies kegg`substatus, kegg.pool
      ensures kegg.Ready() && kegg.handlers == old(kegg.handlers)
      ensures kegg.substatus == Bump(old(kegg.substatus), kegg.numThreads, kegg.maxsubstatus)
      ensures r == PutValues(d, ExpectedSlots(piece, IdCalls(piece, Btit, avoid), remote, |kegg.handlers|), AsTitle)
    {
      kegg.RunChunk(piece, IdCalls(piece, Btit, avoid), remote);
      r := ScanTitles(kegg.handlers, Slots(kegg.handlers), d);
    }

    /** One chunk of the map phase. */
    method MapChunk(piece: seq<Id>, d: Pages, remote: Remote) returns (r: Pages)
      requires kegg.Ready() && |piece| <= kegg.numThreads
      modifies kegg`substatus, kegg.pool
      ensures kegg.Ready() && kegg.handlers == old(kegg.handlers)
      ensures kegg.substatus == Bump(old(kegg.substatus), kegg.numThreads, kegg.maxsubstatus)
      ensures r == PutValues(d, ExpectedSlots(piece, IdCalls(piece, MapPage, avoid), remote, |kegg.handlers|), MapOf)
    {
      kegg.RunChunk(piece, IdCalls(piece, MapPage, avoid), remote);
      r := ScanMaps(kegg.handlers, Slots(kegg.handlers), d);
    }

    /** One chunk of a discovery phase: no id is avoided. */
    method LinkChunk(piece: seq<Id>, ep: Endpoint, l: Linked, remote: Remote) returns (r: Linked)
      requires kegg.Ready() && |piece| <= kegg.numThreads
      modifies kegg`substatus, kegg.pool
      ensures kegg.Ready() && kegg.handlers == old(kegg.handlers)
      ensures kegg.substatus == Bump(old(kegg.substatus), kegg.numThreads, kegg.maxsubstatus)
      ensures r == PutLinks(l, ExpectedSlots(piece, IdCalls(piece, ep, []), remote, |kegg.handlers|))
    {
      kegg.RunChunk(piece, IdCalls(piece, ep, []), remote);
      r := ScanLinks(kegg.handlers, Slots(kegg.handlers), l);
    }

    /** The chunks of a title phase, one after another. */
    method TitleLoop(chunks: seq<seq<Id>>, d: Details, remote: Remote) returns (r: Details)
      requires kegg.Ready() && forall i :: 0 <= i < |chunks| ==> |chunks[i]| <= kegg.numThreads
      modifies kegg`substatus, kegg.pool
      ensures kegg.Ready() && kegg.handlers == old(kegg.handlers)
      ensures r == ScannedValues(d, chunks, |chunks|, Btit, avoid, remote, AsTitle, |kegg.handlers|)
      ensures kegg.substatus == Progress(old(kegg.substatus), |chunks|, kegg.numThreads, kegg.maxsubstatus)
    {
      r := d;
      var c := 0;
      while c < |chunks|
        invariant 0 <= c <= |chunks|
        invariant kegg.Ready() && kegg.handlers == old(kegg.handlers)
        invariant r == ScannedValues(d, chunks, c, Btit, avoid, remote, AsTitle, |kegg.handlers|)
        invariant kegg.substatus == Progress(old(kegg.substatus), c, kegg.numThreads, kegg.maxsubstatus)
      {
        r := TitleChunk(chunks[c], r, remote);
        c := c + 1;
      }
    }

    /** A title phase over `keys`: chunk after chunk, the ids not avoided
        are sent to `getTitle` and every truthy title is stored. */
    method TitleRounds(keys: seq<Id>, d: Details, remote: Remote) returns (r: Details, ghost rounds: nat)
      requires kegg.Ready()
      modifies kegg`substatus, kegg.pool
      ensures kegg.Ready() && kegg.handlers == old(kegg.handlers)
      ensures r == Override(d, SetOf(keys), avoid, Hits(remote, Btit), AsTitle)
      ensures kegg.Progressed(old(kegg.substatus), |keys|, rounds)
    {
      var chunks := GetSpan(keys, kegg.numThreads);
      r := TitleLoop(chunks, d, remote);
      ScannedValuesOverride(d, chunks, |chunks|, Btit, avoid, remote, AsTitle, |kegg.handlers|);
      assert chunks[..|chunks|] == chunks;
      FlattenCount(chunks, kegg.numThreads);
      rounds := |chunks|;
    }

    /** The chunks of the map phase, one after another. */
    method MapLoop(chunks: seq<seq<Id>>, d: Pages, remote: Remote) returns (r: Pages)
      requires kegg.Ready() && forall i :: 0 <= i < |chunks| ==> |chunks[i]| <= kegg.numThreads
      modifies kegg`substatus, kegg.pool
      ensures kegg.Ready() && kegg.handlers == old(kegg.handlers)
      ensures r == ScannedValues(d, chunks, |chunks|, MapPage, avoid, remote, MapOf, |kegg.handlers|)
      ensures kegg.substatus == Progress(old(kegg.substatus), |chunks|, kegg.numThreads, kegg.maxsubstatus)
    {
      r := d;
      var c := 0;
      while c < |chunks|
        invariant 0 <= c <= |chunks|
        invariant kegg.Ready() && kegg.handlers == old(kegg.handlers)
        invariant r == ScannedValues(d, chunks, c, MapPage, avoid, remote, MapOf, |kegg.handlers|)
        invariant kegg.substatus == Progress(old(kegg.substatus), c, kegg.numThreads, kegg.maxsubstatus)
      {
        r := MapChunk(chunks[c], r, remote);
        c := c + 1;
      }
    }

    /** The map phase over `keys`: the ids not avoided are sent to
        `getHTMLColoredPathway(id, [], [])` and every truthy page is parsed
        for its map. */
    method MapRounds(keys: seq<Id>, d: Pages, remote: Remote) returns (r: Pages, ghost rounds: nat)
      requires kegg.Ready()
      modifies kegg`substatus, kegg.pool
      ensures kegg.Ready() && kegg.handlers == old(kegg.handlers)
      ensures r == Override(d, SetOf(keys), avoid, Hits(remote, MapPage), MapOf)
      ensures kegg.Progressed(old(kegg.substatus), |keys|, rounds)
    {
      var chunks := GetSpan(keys, kegg.numThreads);
      r := MapLoop(chunks, d, remote);
      ScannedValuesOverride(d, chunks, |chunks|, MapPage, avoid, remote, MapOf, |kegg.handlers|);
      assert chunks[..|chunks|] == chunks;
      FlattenCount(chunks, kegg.numThreads);
      rounds := |chunks|;
    }

    /** The chunks of a discovery phase, one after another. */
    method LinkLoop(chunks: seq<seq<Id>>, ep: Endpoint, l: Linked, remote: Remote) returns (r: Linked)
      requires kegg.Ready() && forall i :: 0 <= i < |chunks| ==> |chunks[i]| <= kegg.numThreads
      modifies kegg`substatus, kegg.pool
      ensures kegg.Ready() && kegg.handlers == old(kegg.handlers)
      ensures r == ScannedLinks(l, chunks, |chunks|, ep, remote, |kegg.handlers|)
      ensures kegg.substatus == Progress(old(kegg.substatus), |chunks|, kegg.numThreads, kegg.maxsubstatus)
    {
      r := l;
      var c := 0;
      ghost var n := |kegg.handlers|;
      while c < |chunks|
        invariant 0 <= c <= |chunks|
        invariant kegg.Ready() && kegg.handlers == old(kegg.handlers)
        invariant r == ScannedLinks(l, chunks, c, ep, remote, n)
        invariant kegg.substatus == Progress(old(kegg.substatus), c, kegg.numThreads, kegg.maxsubstatus)
      {
        r := LinkChunk(chunks[c], ep, r, remote);
        c := c + 1;
      }
    }

    /** A discovery phase over `keys` at `ep`: every id is sent (none is
        avoided) and the ids each truthy result lists are appended. */
    method LinkRounds(keys: seq<Id>, ep: Endpoint, l: Linked, remote: Remote)
      returns (r: Linked, ghost chunks: seq<seq<Id>>, ghost rounds: nat)
      requires kegg.Ready()
      modifies kegg`substatus, kegg.pool
      ensures kegg.Ready() && kegg.handlers == old(kegg.handlers)
      ensures SpanOf(chunks, keys, kegg.numThreads) && r == AddAll(l, DedupEach(chunks), Hits(remote, ep))
      ensures kegg.Progressed(old(kegg.substatus), |keys|, rounds)
    {
      var cs := GetSpan(keys, kegg.numThreads);
      chunks := cs;
      r := LinkLoop(cs, ep, l, remote);
      ScannedLinksAdd(l, chunks, |chunks|, ep, remote, |kegg.handlers|);
      assert chunks[..|chunks|] == chunks;
      FlattenCount(chunks, kegg.numThreads);
      rounds := |chunks|;
    }

    // -------------------------------------------------------------------
    // The phases

    /** `getReactDetails`. */
    method GetReactDetails(remote: Remote) returns (ghost rounds: nat)
      requires kegg.Ready()
      modifies this`reactdet, kegg`substatus, kegg.pool
      ensures kegg.Ready() && kegg.handlers == old(kegg.handlers)
      ensures State() == ReactDetails(old(State()), avoid, remote)
      ensures kegg.Progressed(old(kegg.substatus), |old(reactdet)|, rounds)
    {
      var keys := KeysOf(reactdet);
      DistinctCard(keys);
      reactdet, rounds := TitleRounds(keys, reactdet, remote);
    }

    /** `getPathDetails`. */
    method GetPathDetails(remote: Remote) returns (ghost rounds: nat)
      requires kegg.Ready()
      modifies this`pathdet, kegg`substatus, kegg.pool
      ensures kegg.Ready() && kegg.handlers == old(kegg.handlers)
      ensures State() == PathDetails(old(State()), avoid, remote)
      ensures kegg.Progressed(old(kegg.substatus), |old(pathdet)|, rounds)
    {
      var keys := KeysOf(pathdet);
      DistinctCard(keys);
      pathdet, rounds := TitleRounds(keys, pathdet, remote);
    }

    /** `getMapsDetails`. */
    method GetMapsDetails(remote: Remote) returns (ghost rounds: nat)
      requires kegg.Ready()
      modifies this`pathmap, kegg`substatus, kegg.pool
      ensures kegg.Ready() && kegg.handlers == old(kegg.handlers)
      ensures State() == MapsDetails(old(State()), avoid, remote)
      ensures kegg.Progressed(old(kegg.substatus), |old(pathdet)|, rounds)
    {
      var keys := KeysOf(pathdet);
      DistinctCard(keys);
      pathmap, rounds := MapRounds(keys, pathmap, remote);
    }

    /** `getCompDetails`. */
    method GetCompDetails(remote: Remote) returns (ghost rounds: nat)
      requires kegg.Ready()
      modifies this`compdet, kegg`substatus, kegg.pool
      ensures kegg.Ready() && kegg.handlers == old(kegg.handlers)
      ensures State() == CompDetails(old(State()), avoid, remote)
      ensures kegg.Progressed(old(kegg.substatus), |old(compdet)|, rounds)
    {
      var keys := KeysOf(compdet);
      DistinctCard(keys);
      compdet, rounds := TitleRounds(keys, compdet, remote);
    }

    /** `getPathReactions`. */
    method GetPathReactions(remote: Remote) returns (ghost rounds: nat)
      requires kegg.Ready()
      modifies this`pathreact, this`reactdet, kegg`substatus, kegg.pool
      ensures kegg.Ready() && kegg.handlers == old(kegg.handlers)
      ensures State() == PathReactions(old(State()), remote)
      ensures kegg.Progressed(old(kegg.substatus), |old(pathdet)|, rounds)
    {
      var keys := KeysOf(pathdet);
      DistinctCard(keys);
      var l;
      ghost var chunks;
      l, chunks, rounds := LinkRounds(keys, ReactionsByPathway, Linked(pathreact, reactdet), remote);
      DedupEachDistinct(chunks);
      AddAllDistinct(Linked(pathreact, reactdet), keys, Hits(remote, ReactionsByPathway));
      pathreact, reactdet := l.links, l.det;
    }

    /** `getPathCompounds`. */
    method GetPathCompounds(remote: Remote) returns (ghost rounds: nat)
      requires kegg.Ready()
      modifies this`pathcomp, this`compdet, kegg`substatus, kegg.pool
      ensures kegg.Ready() && kegg.handlers == old(kegg.handlers)
      ensures State() == PathCompounds(old(State()), remote)
      ensures kegg.Progressed(old(kegg.substatus), |old(pathdet)|, rounds)
    {
      var keys := KeysOf(pathdet);
      DistinctCard(keys);
      var l;
      ghost var chunks;
      l, chunks, rounds := LinkRounds(keys, CompoundsByPathway, Linked(pathcomp, compdet), remote);
      DedupEachDistinct(chunks);
      AddAllDistinct(Linked(pathcomp, compdet), keys, Hits(remote, CompoundsByPathway));
      pathcomp, compdet := l.links, l.det;
    }

    /** A phase of `run`, with what follows it: `cleanHandlers()` and
        `resetSubStatus()`. */
    method EndPhase()
      requires kegg.Ready()
      modifies kegg`substatus, kegg.pool
      ensures kegg.Ready() && kegg.handlers == old(kegg.handlers) && kegg.substatus == 0
      ensures forall j :: 0 <= j < |kegg.handlers| ==> kegg.handlers[j].input == None && kegg.handlers[j].result == None
    {
      kegg.CleanHandlers();
      kegg.ResetSubStatus();
    }

    /** Pathway details, then pathway maps, each with its progress maximum
        set first. */
    method PathwayPhases(remote: Remote)
      requires kegg.Ready()
      modifies this`pathdet, this`pathmap, kegg`substatus, kegg`maxsubstatus, kegg.pool
      ensures kegg.Ready() && kegg.handlers == old(kegg.handlers) && kegg.substatus == 0
      ensures State() == MapsDetails(PathDetails(old(State()), avoid, remote), avoid, remote)
      ensures forall j :: 0 <= j < |kegg.handlers| ==> kegg.handlers[j].input == None && kegg.handlers[j].result == None
    {
      kegg.maxsubstatus := |pathdet|;
      ghost var _ := GetPathDetails(remote);
      ghost var t1 := State();
      EndPhase();
      kegg.maxsubstatus := |pathdet|;
      ghost var _ := GetMapsDetails(remote);
      assert State() == MapsDetails(t1, avoid, remote);
      EndPhase();
    }

    /** Reaction details, then compound details. */
    method ObjectPhases(remote: Remote)
      requires kegg.Ready()
      modifies this`reactdet, this`compdet, kegg`substatus, kegg`maxsubstatus, kegg.pool
      ensures kegg.Ready() && kegg.handlers == old(kegg.handlers) && kegg.substatus == 0
      ensures State() == CompDetails(ReactDetails(old(State()), avoid, remote), avoid, remote)
      ensures forall j :: 0 <= j < |kegg.handlers| ==> kegg.handlers[j].input == None && kegg.handlers[j].result == None
    {
      kegg.maxsubstatus := |reactdet|;
      ghost var _ := GetReactDetails(remote);
      ghost var t1 := State();
      EndPhase();
      kegg.maxsubstatus := |compdet|;
      ghost var _ := GetCompDetails(remote);
      assert State() == CompDetails(t1, avoid, remote);
      EndPhase();
    }

    /** The four detail phases that end both runs. */
    method FinishRun(remote: Remote)
      requires kegg.Ready()
      modifies this`pathdet, this`pathmap, this`reactdet, this`compdet, kegg`substatus, kegg`maxsubstatus, kegg.pool
      ensures kegg.Ready() && kegg.handlers == old(kegg.handlers) && kegg.substatus == 0
      ensures State() == DetailPhases(old(State()), avoid, remote)
    {
      PathwayPhases(remote);
      ObjectPhases(remote);
    }

    /** The two discovery phases over the known pathways. */
    method DiscoverContents(remote: Remote)
      requires kegg.Ready()
      modifies this`pathreact, this`reactdet, this`pathcomp, this`compdet, kegg`substatus, kegg`maxsubstatus, kegg.pool
      ensures kegg.Ready() && kegg.handlers == old(kegg.handlers) && kegg.substatus == 0
      ensures State() == PathContents(old(State()), remote)
    {
      kegg.maxsubstatus := |pathdet|;
      ghost var _ := GetPathReactions(remote);
      ghost var t1 := State();
      EndPhase();
      kegg.maxsubstatus := |pathdet|;
      ghost var _ := GetPathCompounds(remote);
      assert State() == PathCompounds(t1, remote);
      EndPhase();
    }
  }

  class KoMapper {
    const base: BaseMapper
    /** The KO ids to map, in the caller's order. */
    const ko: seq<Id>
    var kodet: Details
    var koreact: LinkMap
    var reactpath: LinkMap

    /** `KoMapper(ko_list, threads, avoid)`. */
    constructor (koList: seq<Id>, threads: int, avoid: seq<Id>)
      ensures fresh(base) && fresh(base.kegg) && base.kegg.numThreads == threads && base.kegg.handlers == []
      ensures base.kegg.pool == {} && base.kegg.substatus == 0 && base.kegg.maxsubstatus == 0
      ensures base.kegg.failure == None && base.avoid == avoid && base.result == None
      ensures ko == koList && State() == NoKoTables
    {
      base := new BaseMapper(threads, avoid);
      ko := koList;
      kodet, koreact, reactpath := map[], map[], map[];
    }

    /** All the mapper's dictionaries, as a value. */
    function State(): KoTables
      reads this`kodet, this`koreact, this`reactpath, base`reactdet, base`pathdet, base`compdet, base`pathreact, base`pathcomp, base`pathmap
    {
      KoTables(base.State(), kodet, koreact, reactpath)
    }

    /** `getKOdet`: over the KO list, which may repeat ids. */
    method GetKOdet(remote: Remote) returns (ghost rounds: nat)
      requires base.kegg.Ready()
      modifies this`kodet, base.kegg`substatus, base.kegg.pool
      ensures base.kegg.Ready() && base.kegg.handlers == old(base.kegg.handlers)
      ensures State() == KoDetails(old(State()), ko, base.avoid, remote)
      ensures base.kegg.Progressed(old(base.kegg.substatus), |ko|, rounds)
    {
      kodet, rounds := base.TitleRounds(ko, kodet, remote);
    }

    /** `getReactions`. */
    method GetReactions(remote: Remote) returns (ghost chunks: seq<seq<Id>>, ghost rounds: nat)
      requires base.kegg.Ready()
      modifies this`koreact, base`reactdet, base.kegg`substatus, base.kegg.pool
      ensures base.kegg.Ready() && base.kegg.handlers == old(base.kegg.handlers)
      ensures SpanOf(chunks, ko, base.kegg.numThreads) && State() == KoReactions(old(State()), chunks, remote)
      ensures base.kegg.Progressed(old(base.kegg.substatus), |ko|, rounds)
    {
      var l;
      l, chunks, rounds := base.LinkRounds(ko, LinkdbReaction, Linked(koreact, base.reactdet), remote);
      koreact, base.reactdet := l.links, l.det;
    }

    /** `getPathways`: over the reactions known so far. */
    method GetPathways(remote: Remote) returns (ghost rounds: nat)
      requires base.kegg.Ready()
      modifies this`reactpath, base`pathdet, base.kegg`substatus, base.kegg.pool
      ensures base.kegg.Ready() && base.kegg.handlers == old(base.kegg.handlers)
      ensures State() == KoPathways(old(State()), remote)
      ensures base.kegg.Progressed(old(base.kegg.substatus), |old(base.reactdet)|, rounds)
    {
      var keys := KeysOf(base.reactdet);
      DistinctCard(keys);
      var l;
      ghost var chunks;
      l, chunks, rounds := base.LinkRounds(keys, PathwaysByReactions, Linked(reactpath, base.pathdet), remote);
      DedupEachDistinct(chunks);
      AddAllDistinct(Linked(reactpath, base.pathdet), keys, Hits(remote, PathwaysByReactions));
      reactpath, base.pathdet := l.links, l.det;
    }

    /** The discovery phases of `run`, each with its progress maximum set
        first and followed by `cleanHandlers()` and `resetSubStatus()`. */
    method Discover(remote: Remote) returns (ghost chunks: seq<seq<Id>>)
      requires base.kegg.Ready()
      modifies this`koreact, this`reactpath, base`reactdet, base`pathdet, base`compdet,
               base`pathreact, base`pathcomp, base.kegg`substatus, base.kegg`maxsubstatus, base.kegg.pool
      ensures base.kegg.Ready() && base.kegg.handlers == old(base.kegg.handlers) && base.kegg.substatus == 0
      ensures SpanOf(chunks, ko, base.kegg.numThreads) && State() == KoDiscovery(old(State()), chunks, remote)
    {
      var kegg := base.kegg;
      ghost var k0 := State();
      kegg.maxsubstatus := |ko|;
      ghost var rounds;
      chunks, rounds := GetReactions(remote);
      ghost var k1 := State();
      assert k1 == KoReactions(k0, chunks, remote);
      base.EndPhase();
      kegg.maxsubstatus := |base.reactdet|;
      ghost var _ := GetPathways(remote);
      ghost var k2 := State();
      assert k2 == KoPathways(k1, remote);
      base.EndPhase();
      ghost var b2 := base.State();
      base.DiscoverContents(remote);
      assert base.State() == PathContents(b2, remote);
    }

    /** The detail phases of `run`: getKOdet, then those of every mapper. */
    method Describe(remote: Remote)
      requires base.kegg.Ready()
      modifies this`kodet, base`reactdet, base`pathdet, base`compdet, base`pathmap,
               base.kegg`substatus, base.kegg`maxsubstatus, base.kegg.pool
      ensures base.kegg.Ready() && base.kegg.handlers == old(base.kegg.handlers) && base.kegg.substatus == 0
      ensures var known := KoDetails(old(State()), ko, base.avoid, remote);
              State() == known.(base := DetailPhases(known.base, base.avoid, remote))
    {
      var kegg := base.kegg;
      ghost var k0 := State();
      kegg.maxsubstatus := |ko|;
      ghost var _ := GetKOdet(remote);
      ghost var k1 := State();
      assert k1 == KoDetails(k0, ko, base.avoid, remote);
      base.EndPhase();
      ghost var b1 := base.State();
      base.FinishRun(remote);
      assert base.State() == DetailPhases(b1, base.avoid, remote);
    }

    /** The phases of `run` once the pool is connected; `chunks` are the
        chunks `get_span` cut the KO list into for `getReactions`. */
    method Phases(remote: Remote) returns (ghost chunks: seq<seq<Id>>)
      requires base.kegg.Ready()
      modifies this`kodet, this`koreact, this`reactpath, base`reactdet, base`pathdet, base`compdet,
               base`pathreact, base`pathcomp, base`pathmap, base.kegg`substatus, base.kegg`maxsubstatus, base.kegg.pool
      ensures base.kegg.Ready() && base.kegg.handlers == old(base.kegg.handlers) && base.kegg.substatus == 0
      ensures SpanOf(chunks, ko, base.kegg.numThreads) && State() == KoRun(old(State()), ko, chunks, base.avoid, remote)
    {
      chunks := Discover(remote);
      Describe(remote);
    }

    /** The run of a connected pool: the phases, then the result. */
    method Proceed(remote: Remote) returns (ghost chunks: seq<seq<Id>>)
      requires base.kegg.Ready()
      modifies this`kodet, this`koreact, this`reactpath, base`reactdet, base`pathdet, base`compdet,
               base`pathreact, base`pathcomp, base`pathmap, base`result,
               base.kegg`substatus, base.kegg`maxsubstatus, base.kegg.pool
      ensures base.kegg.Ready() && base.kegg.handlers == old(base.kegg.handlers) && base.kegg.substatus == 0
      ensures SpanOf(chunks, ko, base.kegg.numThreads) && State() == KoRun(old(State()), ko, chunks, base.avoid, remote)
      ensures base.result == Some(KoResult(State()))
    {
      chunks := Phases(remote);
      base.result := Some(KoResult(State()));
    }

    /** `run`: connect the pool, then the phases in their order, each with
        its progress maximum set first and followed by `cleanHandlers()`
        and `resetSubStatus()`, then craft the result. When a session
        cannot connect the run stops with a failure: the sessions opened
        before it stay in the pool, and no dictionary, result or progress
        counter changes. */
    method Run(dial: (nat, nat) -> bool, remote: Remote) returns (ghost chunks: seq<seq<Id>>)
      requires base.kegg.Valid() && base.kegg.numThreads >= 1
      modifies this`kodet, this`koreact, this`reactpath, base`reactdet, base`pathdet, base`compdet,
               base`pathreact, base`pathcomp, base`pathmap, base`result, base.kegg`handlers, base.kegg`pool,
               base.kegg`failure, base.kegg`substatus, base.kegg`maxsubstatus, base.kegg.pool
      ensures base.kegg.Valid()
      ensures |base.kegg.handlers| == |old(base.kegg.handlers)| + Opened(dial, base.kegg.numThreads)
      ensures forall j :: 0 <= j < |old(base.kegg.handlers)| ==> base.kegg.handlers[j] == old(base.kegg.handlers)[j]
      ensures var up := forall i :: 0 <= i < base.kegg.numThreads ==> SessionUp(dial, i);
              if up then
                SpanOf(chunks, ko, base.kegg.numThreads) &&
                State() == KoRun(old(State()), ko, chunks, base.avoid, remote) &&
                base.result == Some(KoResult(State())) &&
                base.kegg.failure == old(base.kegg.failure) && base.kegg.substatus == 0
              else
                State() == old(State()) && base.result == old(base.result) &&
                base.kegg.failure == Some(ConnectFailure) &&
                base.kegg.substatus == old(base.kegg.substatus) && base.kegg.maxsubstatus == old(base.kegg.maxsubstatus)
    {
      var kegg := base.kegg;
      ghost var s0 := State();
      var ok := kegg.Connect(dial);
      assert State() == s0;
      if !ok {
        kegg.SendFailure(ConnectFailure);
        chunks := [];
        return;
      }
      chunks := Proceed(remote);
    }
  }

  class CompMapper {
    const base: BaseMapper
    /** The compound ids to map, in the caller's order. */
    const co: seq<Id>
    var comppath: LinkMap

    /** `CompMapper(co_list, threads, avoid)`. */
    constructor (coList: seq<Id>, threads: int, avoid: seq<Id>)
      ensures fresh(base) && fresh(base.kegg) && base.kegg.numThreads == threads && base.kegg.handlers == []
      ensures base.kegg.pool == {} && base.kegg.substatus == 0 && base.kegg.maxsubstatus == 0
      ensures base.kegg.failure == None && base.avoid == avoid && base.result == None
      ensures co == coList && State() == NoCompTables
    {
      base := new BaseMapper(threads, avoid);
      co := coList;
      comppath := map[];
    }

    function State(): CompTables
      reads this`comppath, base`reactdet, base`pathdet, base`compdet, base`pathreact, base`pathcomp, base`pathmap
    {
      CompTables(base.State(), comppath)
    }

    /** `getPathways`: over the compound list. */
    method GetPathways(remote: Remote) returns (ghost chunks: seq<seq<Id>>, ghost rounds: nat)
      requires base.kegg.Ready()
      modifies this`comppath, base`pathdet, base.kegg`substatus, base.kegg.pool
      ensures base.kegg.Ready() && base.kegg.handlers == old(base.kegg.handlers)
      ensures SpanOf(chunks, co, base.kegg.numThreads) && State() == CompPathways(old(State()), chunks, remote)
      ensures base.kegg.Progressed(old(base.kegg.substatus), |co|, rounds)
    {
      var l;
      l, chunks, rounds := base.LinkRounds(co, PathwaysByCompounds, Linked(comppath, base.pathdet), remote);
      comppath, base.pathdet := l.links, l.det;
    }

    /** The phases of `run` once the pool is connected; `chunks` are the
        chunks `get_span` cut the compound list into for `getPathways`. */
    method Phases(remote: Remote) returns (ghost chunks: seq<seq<Id>>)
      requires base.kegg.Ready()
      modifies this`comppath, base`reactdet, base`pathdet, base`compdet,
               base`pathreact, base`pathcomp, base`pathmap, base.kegg`substatus, base.kegg`maxsubstatus, base.kegg.pool
      ensures base.kegg.Ready() && base.kegg.handlers == old(base.kegg.handlers) && base.kegg.substatus == 0
      ensures SpanOf(chunks, co, base.kegg.numThreads) && State() == CompRun(old(State()), chunks, base.avoid, remote)
    {
      var kegg := base.kegg;
      ghost var c0 := State();
      kegg.maxsubstatus := |co|;
      ghost var rounds;
      chunks, rounds := GetPathways(remote);
      ghost var c1 := State();
      assert c1 == CompPathways(c0, chunks, remote);
      base.EndPhase();
      base.DiscoverContents(remote);
      ghost var c2 := State();
      assert c2 == c1.(base := PathContents(c1.base, remote));
      base.FinishRun(remote);
      assert State() == c2.(base := DetailPhases(c2.base, base.avoid, remote));
    }

    /** The run of a connected pool: the phases, then the result. */
    method Proceed(remote: Remote) returns (ghost chunks: seq<seq<Id>>)
      requires base.kegg.Ready()
      modifies this`comppath, base`reactdet, base`pathdet, base`compdet,
               base`pathreact, base`pathcomp, base`pathmap, base`result,
               base.kegg`substatus, base.kegg`maxsubstatus, base.kegg.pool
      ensures base.kegg.Ready() && base.kegg.handlers == old(base.kegg.handlers) && base.kegg.substatus == 0
      ensures SpanOf(chunks, co, base.kegg.numThreads) && State() == CompRun(old(State()), chunks, base.avoid, remote)
      ensures base.result == Some(CompResult(State()))
    {
      chunks := Phases(remote);
      base.result := Some(CompResult(State()));
    }

    /** `run`: connect, getPathways, the two discovery phases over the
        pathways, the four detail phases, then craft the result. A connect
        failure stops the run as for `KoMapper.run`. */
    method Run(dial: (nat, nat) -> bool, remote: Remote) returns (ghost chunks: seq<seq<Id>>)
      requires base.kegg.Valid() && base.kegg.numThreads >= 1
      modifies this`comppath, base`reactdet, base`pathdet, base`compdet,
               base`pathreact, base`pathcomp, base`pathmap, base`result, base.kegg`handlers, base.kegg`pool,
               base.kegg`failure, base.kegg`substatus, base.kegg`maxsubstatus, base.kegg.pool
      ensures base.kegg.Valid()
      ensures |base.kegg.handlers| == |old(base.kegg.handlers)| + Opened(dial, base.kegg.numThreads)
      ensures forall j :: 0 <= j < |old(base.kegg.handlers)| ==> base.kegg.handlers[j] == old(base.kegg.handlers)[j]
      ensures var up := forall i :: 0 <= i < base.kegg.numThreads ==> SessionUp(dial, i);
              if up then
                SpanOf(chunks, co, base.kegg.numThreads) &&
                State() == CompRun(old(State()), chunks, base.avoid, remote) &&
                base.result == Some(CompResult(State())) &&
                base.kegg.failure == old(base.kegg.failure) && base.kegg.substatus == 0
              else
                State() == old(State()) && base.result == old(base.result) &&
                base.kegg.failure == Some(ConnectFailure) &&
                base.kegg.substatus == old(base.kegg.substatus) && base.kegg.maxsubstatus == old(base.kegg.maxsubstatus)
    {
      var kegg := base.kegg;
      ghost var s0 := State();
      var ok := kegg.Connect(dial);
      assert State() == s0;
      if !ok {
        kegg.SendFailure(ConnectFailure);
        chunks := [];
        return;
      }
      chunks := Proceed(remote);
    }
  }

}
