/**
 * MapsFetcher: fetches the colored KEGG map of every KeggColor object, as
 * a picture written under a scratch directory (the model keeps the list of
 * file names) and/or as the URL of the colored HTML page. Each phase runs
 * the color objects chunk by chunk on the pool, like the mapper phases: the
 * object at position `i` of a chunk goes to handler `piece.index(obj)`,
 * which for objects is the first position of that very object.
 */
module Fetching {

  import opened Wrappers
  import opened KeggApi
  import opened Pool
  import opened Coloring

  // ---------------------------------------------------------------------
  // Paths

  /** A path starting with '/'. */
  predicate Absolute(p: string)
  {
    p != [] && p[0] == '/'
  }

  /** A directory ready to have a name appended: itself when it is empty or
      ends with '/', otherwise with one '/' added. */
  function AsDir(a: string): string
  {
    if a == [] || a[|a| - 1] == '/' then a else a + "/"
  }

  /** `os.path.join(a, b)` on POSIX, for two parts. */
  function PathJoin(a: string, b: string): string
  {
    if Absolute(b) then b else AsDir(a) + b
  }

  /** `b` always ends the joined path; an absolute `b` replaces `a`, a
      relative one follows `a` and at most one added separator. */
  lemma PathJoinParts(a: string, b: string)
    ensures var r := PathJoin(a, b);
            |b| <= |r| && r[|r| - |b|..] == b &&
            (Absolute(b) ==> r == b) &&
            (!Absolute(b) ==> |a| <= |r| <= |a| + |b| + 1 && r[..|a|] == a)
  {
  }

  /** The directory `makeRoom()` records: `tmp/keggmaps/<prefix>` under
      `cwd`, which stands for `os.path.abspath('')`. */
  function KeggRoom(cwd: string, prefix: string): string
  {
    PathJoin(PathJoin(PathJoin(cwd, "tmp"), "keggmaps"), prefix)
  }

  /** Appending is associative. */
  lemma AppendAssoc(x: string, y: string, z: string)
    ensures (x + y) + z == x + (y + z)
  {
  }

  /** A relative prefix names a directory under `cwd/tmp/keggmaps`. */
  lemma KeggRoomUnder(cwd: string, prefix: string)
    requires !Absolute(prefix)
    ensures KeggRoom(cwd, prefix) == AsDir(cwd) + "tmp/keggmaps/" + prefix
  {
    var d := AsDir(cwd);
    var tmp := PathJoin(cwd, "tmp");
    assert !Absolute("tmp");
    assert tmp == d + "tmp";
    assert tmp[|tmp| - 1] == 'p';
    var maps := PathJoin(tmp, "keggmaps");
    assert !Absolute("keggmaps");
    assert maps == (tmp + "/") + "keggmaps";
    AppendAssoc(d, "tmp", "/");
    assert "tmp" + "/" == "tmp/";
    AppendAssoc(d, "tmp/", "keggmaps");
    assert "tmp/" + "keggmaps" == "tmp/keggmaps";
    assert maps == d + "tmp/keggmaps";
    assert maps[|maps| - 1] == 's';
    assert KeggRoom(cwd, prefix) == (maps + "/") + prefix;
    AppendAssoc(d, "tmp/keggmaps", "/");
    assert "tmp/keggmaps" + "/" == "tmp/keggmaps/";
  }

  /** The file `getMaps` writes the picture of pathway `id` to. */
  function PicFile(room: string, id: Id): string
  {
    PathJoin(room, id) + ".png"
  }

  // ---------------------------------------------------------------------
  // Requests

  /** The request `getMaps` (`picture`) or `getPages` makes for a color
      object: `getColoredPathway` or `getURLColoredPathway` of its pathway,
      with the ids and colors of its `getAll()`. */
  function Ask(c: KeggColor, picture: bool): Call
    reads c
  {
    var (objs, colors) := c.GetAll();
    Call(if picture then ColoredPicture(objs, colors) else ColoredUrl(objs, colors), c.path)
  }

  /** The request of each color object of a phase. */
  type Requests = map<KeggColor, Call>

  /** The requests of a list of color objects, as they stand. */
  function RequestsOf(cs: seq<KeggColor>, picture: bool): (asks: Requests)
    reads cs
    ensures forall i :: 0 <= i < |cs| ==> cs[i] in asks
    ensures forall c :: c in asks ==> c in cs && asks[c] == Ask(c, picture)
  {
    map c | c in cs :: Ask(c, picture)
  }

  /** The calls of a chunk, one per position: the same object always makes
      the same call. */
  function CallsOf(piece: seq<KeggColor>, asks: Requests): (calls: seq<Option<Call>>)
    ensures |calls| == |piece|
    ensures forall i :: 0 <= i < |piece| ==> calls[i] == if piece[i] in asks then Some(asks[piece[i]]) else None
  {
    seq(|piece|, i requires 0 <= i < |piece| => if piece[i] in asks then Some(asks[piece[i]]) else None)
  }

  /** The calls of a chunk fit it: equal objects make equal calls. */
  lemma CallsOfFit(piece: seq<KeggColor>, asks: Requests)
    ensures CallsFit(piece, CallsOf(piece, asks))
  {
  }

  /** The slots of the handler that served color object `c`. */
  function Served(c: KeggColor, asks: Requests, remote: Remote): Slot
  {
    if c in asks then Slot(Some(asks[c].id), Fetch(true, remote, asks[c].ep, asks[c].id, Retries))
    else Slot(None, None)
  }

  /** The slots of one handler per color object. */
  function ServedAll(cs: seq<KeggColor>, asks: Requests, remote: Remote): (r: seq<Slot>)
    ensures |r| == |cs| && forall i :: 0 <= i < |cs| ==> r[i] == Served(cs[i], asks, remote)
  {
    seq(|cs|, i requires 0 <= i < |cs| => Served(cs[i], asks, remote))
  }

  /** The color object's request gave a truthy result. */
  predicate Fetched(c: KeggColor, asks: Requests, remote: Remote)
  {
    var s := Served(c, asks, remote);
    s.result.Some? && Truthy(s.result.value)
  }

  // ---------------------------------------------------------------------
  // Collecting the handlers' results

  /** What a handler gives `getMaps`: the file its truthy picture is
      written to. A handler holds a result only with an input. */
  function FileOf(room: string, s: Slot): seq<string>
  {
    if s.result.Some? && Truthy(s.result.value) && s.input.Some? then [PicFile(room, s.input.value)] else []
  }

  function NameFiles(room: string): Slot -> seq<string>
  {
    (s: Slot) => FileOf(room, s)
  }

  /** What a handler gives `getPages`: its truthy result, the page's URL. */
  function PageOf(s: Slot): seq<Reply>
  {
    if s.result.Some? && Truthy(s.result.value) then [s.result.value] else []
  }

  /** The scan of the first `n` handlers, in pool order, `f` telling what
      each handler adds. */
  function Gather<T>(slots: seq<Slot>, n: nat, f: Slot -> seq<T>): seq<T>
    requires n <= |slots|
  {
    if n == 0 then [] else Gather(slots, n - 1, f) + f(slots[n - 1])
  }

  /** The scan of the first `n` handlers does not look past handler `n`. */
  lemma {:induction false} GatherPrefix<T>(slots: seq<Slot>, more: seq<Slot>, n: nat, f: Slot -> seq<T>)
    requires n <= |slots|
    ensures Gather(slots + more, n, f) == Gather(slots, n, f)
  {
    if n > 0 {
      var m := n - 1;
      GatherPrefix(slots, more, m, f);
      assert (slots + more)[m] == slots[m];
    }
  }

  /** Scanning `a` then the first `n` slots of `b` is scanning them laid end
      to end. */
  lemma {:induction false} GatherConcat<T>(a: seq<Slot>, b: seq<Slot>, n: nat, f: Slot -> seq<T>)
    requires n <= |b|
    ensures Gather(a + b, |a| + n, f) == Gather(a, |a|, f) + Gather(b, n, f)
  {
    if n == 0 {
      GatherPrefix(a, b, |a|, f);
    } else {
      var m := n - 1;
      GatherConcat(a, b, m, f);
      assert (a + b)[|a| + m] == b[m];
      assert Gather(a + b, |a| + n, f) == Gather(a + b, |a| + m, f) + f(b[m]);
    }
  }

  /** An element is collected exactly when some handler adds it. */
  lemma {:induction false} GatherIn<T>(slots: seq<Slot>, n: nat, f: Slot -> seq<T>, x: T)
    requires n <= |slots|
    ensures x in Gather(slots, n, f) <==> exists j :: 0 <= j < n && x in f(slots[j])
  {
    if n > 0 {
      var m := n - 1;
      GatherIn(slots, m, f, x);
      if x in f(slots[m]) {
        assert exists j :: 0 <= j < n && x in f(slots[j]);
      }
    }
  }

  /** When no handler adds more than one element, at most one element per
      handler is collected. */
  lemma {:induction false} GatherLength<T>(slots: seq<Slot>, n: nat, f: Slot -> seq<T>)
    requires n <= |slots| && forall j :: 0 <= j < n ==> |f(slots[j])| <= 1
    ensures |Gather(slots, n, f)| <= n
  {
    if n > 0 {
      GatherLength(slots, n - 1, f);
    }
  }

  /** The scan of all handlers that `getMaps` makes after a chunk. */
  method ScanPics(hs: seq<KeggAPI>, ghost slots: seq<Slot>, room: string) returns (names: seq<string>)
    requires slots == Slots(hs)
    ensures names == Gather(slots, |slots|, NameFiles(room))
  {
    names := [];
    for i := 0 to |hs|
      invariant names == Gather(slots, i, NameFiles(room))
    {
      var h := hs[i];
      if h.result.Some? && Truthy(h.result.value) && h.input.Some? {
        names := names + [PicFile(room, h.input.value)];
      }
    }
  }

  /** The scan of all handlers that `getPages` makes after a chunk. */
  method ScanPages(hs: seq<KeggAPI>, ghost slots: seq<Slot>) returns (urls: seq<Reply>)
    requires slots == Slots(hs)
    ensures urls == Gather(slots, |slots|, PageOf)
  {
    urls := [];
    for i := 0 to |hs|
      invariant urls == Gather(slots, i, PageOf)
    {
      var h := hs[i];
      if h.result.Some? && Truthy(h.result.value) {
        urls := urls + [h.result.value];
      }
    }
  }

  // ---------------------------------------------------------------------
  // What a chunk and a whole phase collect

  /** A clean handler adds nothing. */
  predicate Quiet<T>(f: Slot -> seq<T>)
  {
    f(Slot(None, None)) == []
  }

  /** The scan of one more handler adds what that handler holds. */
  lemma ScanOneMore<T>(piece: seq<KeggColor>, calls: seq<Option<Call>>, remote: Remote, f: Slot -> seq<T>, k: nat)
    ensures Gather(ExpectedSlots(piece, calls, remote, k + 1), k + 1, f) ==
            Gather(ExpectedSlots(piece, calls, remote, k), k, f) + f(Expected(piece, calls, remote, k))
  {
    var prev := ExpectedSlots(piece, calls, remote, k);
    var e := Expected(piece, calls, remote, k);
    assert ExpectedSlots(piece, calls, remote, k + 1) == prev + [e];
    GatherPrefix(prev, [e], k, f);
    assert (prev + [e])[k] == e;
  }

  /** One more position of a chunk: its first occurrence adds what its
      handler was served, a repeat adds nothing. */
  lemma ChunkStep<T>(piece: seq<KeggColor>, asks: Requests, remote: Remote, f: Slot -> seq<T>, k: nat)
    requires k < |piece| && Quiet(f)
    requires Gather(ExpectedSlots(piece, CallsOf(piece, asks), remote, k), k, f) ==
             Gather(ServedAll(Dedup(piece[..k]), asks, remote), |Dedup(piece[..k])|, f)
    ensures Gather(ExpectedSlots(piece, CallsOf(piece, asks), remote, k + 1), k + 1, f) ==
            Gather(ServedAll(Dedup(piece[..k + 1]), asks, remote), |Dedup(piece[..k + 1])|, f)
  {
    var calls := CallsOf(piece, asks);
    var e := Expected(piece, calls, remote, k);
    ScanOneMore(piece, calls, remote, f, k);
    DedupStep(piece, k);
    var d := Dedup(piece[..k]);
    if FirstAt(piece, k) {
      assert e == Served(piece[k], asks, remote);
      assert ServedAll(d + [piece[k]], asks, remote) == ServedAll(d, asks, remote) + [e];
      GatherConcat(ServedAll(d, asks, remote), [e], 1, f);
      assert Gather([e], 1, f) == f(e);
    } else {
      assert e == Slot(None, None);
    }
  }

  /** The first `m` handlers of a chunk's scan collect, in order, what the
      first occurrences among its first `m` positions were served. */
  lemma {:induction false} ChunkUpTo<T>(piece: seq<KeggColor>, asks: Requests, remote: Remote, f: Slot -> seq<T>, m: nat)
    requires m <= |piece| && Quiet(f)
    ensures Gather(ExpectedSlots(piece, CallsOf(piece, asks), remote, m), m, f) ==
            Gather(ServedAll(Dedup(piece[..m]), asks, remote), |Dedup(piece[..m])|, f)
  {
    if m > 0 {
      var k := m - 1;
      ChunkUpTo(piece, asks, remote, f, k);
      ChunkStep(piece, asks, remote, f, k);
    } else {
      assert piece[..0] == [];
    }
  }

  /** The handlers past the end of a chunk stay clean and add nothing. */
  lemma {:induction false} ChunkBeyond<T>(piece: seq<KeggColor>, calls: seq<Option<Call>>, remote: Remote, f: Slot -> seq<T>, n: nat)
    requires |piece| <= n && Quiet(f)
    ensures Gather(ExpectedSlots(piece, calls, remote, n), n, f) ==
            Gather(ExpectedSlots(piece, calls, remote, |piece|), |piece|, f)
    decreases n
  {
    if n > |piece| {
      var k := n - 1;
      ChunkBeyond(piece, calls, remote, f, k);
      var prev := ExpectedSlots(piece, calls, remote, k);
      var e := Expected(piece, calls, remote, k);
      assert ExpectedSlots(piece, calls, remote, n) == prev + [e];
      assert e == Slot(None, None);
      GatherPrefix(prev, [e], k, f);
    }
  }

  /** A chunk's scan over a pool at least as large as the chunk: what each
      distinct object of the chunk was served, in the order of first
      occurrence. */
  lemma ChunkGather<T>(piece: seq<KeggColor>, asks: Requests, remote: Remote, f: Slot -> seq<T>, n: nat)
    requires |piece| <= n && Quiet(f)
    ensures Gather(ExpectedSlots(piece, CallsOf(piece, asks), remote, n), n, f) ==
            Gather(ServedAll(Dedup(piece), asks, remote), |Dedup(piece)|, f)
  {
    ChunkBeyond(piece, CallsOf(piece, asks), remote, f, n);
    ChunkUpTo(piece, asks, remote, f, |piece|);
    assert piece[..|piece|] == piece;
  }

  /** What the first `c` chunks of a phase collect, one chunk after
      another: what each distinct object of the chunk was served. */
  function Collected<T>(chunks: seq<seq<KeggColor>>, c: nat, asks: Requests, remote: Remote, f: Slot -> seq<T>): seq<T>
    requires c <= |chunks|
  {
    if c == 0 then []
    else
      var d := Dedup(chunks[c - 1]);
      Collected(chunks, c - 1, asks, remote, f) + Gather(ServedAll(d, asks, remote), |d|, f)
  }

  /** The first occurrences within each of the first `c` chunks, chunk by
      chunk. */
  function DedupUpTo<T(==)>(chunks: seq<seq<T>>, c: nat): seq<T>
    requires c <= |chunks|
  {
    if c == 0 then [] else DedupUpTo(chunks, c - 1) + Dedup(chunks[c - 1])
  }

  lemma {:induction false} DedupUpToEach<T>(chunks: seq<seq<T>>, c: nat)
    requires c <= |chunks|
    ensures DedupUpTo(chunks, c) == DedupEach(chunks[..c])
  {
    if c == 0 {
      assert chunks[..0] == [];
    } else {
      var k := c - 1;
      DedupUpToEach(chunks, k);
      assert chunks[..c] == chunks[..k] + [chunks[k]];
      DedupEachSnoc(chunks[..k], chunks[k]);
    }
  }

  /** Serving two lists of objects is serving them laid end to end. */
  lemma ServedAllConcat(a: seq<KeggColor>, b: seq<KeggColor>, asks: Requests, remote: Remote)
    ensures ServedAll(a + b, asks, remote) == ServedAll(a, asks, remote) + ServedAll(b, asks, remote)
  {
    var l, r := ServedAll(a + b, asks, remote), ServedAll(a, asks, remote) + ServedAll(b, asks, remote);
    forall i | 0 <= i < |l| ensures l[i] == r[i] {
      if i >= |a| {
        assert (a + b)[i] == b[i - |a|];
      }
    }
  }

  /** Chunk after chunk, a phase collects what each distinct object of each
      chunk was served, chunk by chunk in order. */
  lemma {:induction false} CollectedAll<T>(chunks: seq<seq<KeggColor>>, c: nat, asks: Requests, remote: Remote, f: Slot -> seq<T>)
    requires c <= |chunks|
    ensures Collected(chunks, c, asks, remote, f) ==
            Gather(ServedAll(DedupUpTo(chunks, c), asks, remote), |DedupUpTo(chunks, c)|, f)
  {
    if c > 0 {
      var k := c - 1;
      CollectedAll(chunks, k, asks, remote, f);
      var a, b := DedupUpTo(chunks, k), Dedup(chunks[k]);
      var sa, sb := ServedAll(a, asks, remote), ServedAll(b, asks, remote);
      assert DedupUpTo(chunks, c) == a + b;
      assert Collected(chunks, c, asks, remote, f) == Collected(chunks, k, asks, remote, f) + Gather(sb, |b|, f);
      ServedAllConcat(a, b, asks, remote);
      assert ServedAll(a + b, asks, remote) == sa + sb;
      GatherConcat(sa, sb, |b|, f);
      assert |sa| == |a|;
      assert Gather(sa + sb, |a| + |b|, f) == Gather(sa, |a|, f) + Gather(sb, |b|, f);
    }
  }

  /** The files a phase of `getMaps` names over the objects `cs`: at most
      one per object, each the file of an object whose picture was
      fetched, and every such object's file. */
  lemma FilesNamed(room: string, cs: seq<KeggColor>, asks: Requests, remote: Remote)
    ensures var names := Gather(ServedAll(cs, asks, remote), |cs|, NameFiles(room));
            |names| <= |cs| &&
            forall x :: x in names <==>
              exists i :: 0 <= i < |cs| && Fetched(cs[i], asks, remote) && x == PicFile(room, asks[cs[i]].id)
  {
    var slots := ServedAll(cs, asks, remote);
    GatherLength(slots, |cs|, NameFiles(room));
    forall x ensures x in Gather(slots, |cs|, NameFiles(room)) <==>
                     exists i :: 0 <= i < |cs| && Fetched(cs[i], asks, remote) && x == PicFile(room, asks[cs[i]].id) {
      GatherIn(slots, |cs|, NameFiles(room), x);
    }
  }

  /** The URLs a phase of `getPages` collects over the objects `cs`: at
      most one per object, each the truthy result of an object's request,
      and every such result. */
  lemma UrlsCollected(cs: seq<KeggColor>, asks: Requests, remote: Remote)
    ensures var urls := Gather(ServedAll(cs, asks, remote), |cs|, PageOf);
            |urls| <= |cs| &&
            forall x :: x in urls <==>
              exists i :: 0 <= i < |cs| && Fetched(cs[i], asks, remote) && Served(cs[i], asks, remote).result == Some(x)
  {
    var slots := ServedAll(cs, asks, remote);
    GatherLength(slots, |cs|, PageOf);
    forall x ensures x in Gather(slots, |cs|, PageOf) <==>
                     exists i :: 0 <= i < |cs| && Fetched(cs[i], asks, remote) && Served(cs[i], asks, remote).result == Some(x) {
      GatherIn(slots, |cs|, PageOf, x);
    }
  }

  /** When no object occurs twice in the list, a phase serves each object
      exactly once, in list order. */
  lemma DistinctColors(colors: seq<KeggColor>, chunks: seq<seq<KeggColor>>, w: nat)
    requires SpanOf(chunks, colors, w) && Distinct(colors)
    ensures DedupEach(chunks) == colors
  {
    DedupEachDistinct(chunks);
  }

  /** The files `getMaps` names, chunk after chunk, over the chunks
      `get_span` cut the color objects into, with the requests `asks`. */
  function Pictures(room: string, chunks: seq<seq<KeggColor>>, asks: Requests, remote: Remote): seq<string>
  {
    var cs := DedupEach(chunks);
    Gather(ServedAll(cs, asks, remote), |cs|, NameFiles(room))
  }

  /** The URLs `getPages` collects, chunk after chunk, likewise. */
  function Urls(chunks: seq<seq<KeggColor>>, asks: Requests, remote: Remote): seq<Reply>
  {
    var cs := DedupEach(chunks);
    Gather(ServedAll(cs, asks, remote), |cs|, PageOf)
  }

  // ---------------------------------------------------------------------
  // The fetcher

  class MapsFetcher {
    const kegg: BaseKegg
    const colors: seq<KeggColor>
    const pictures: bool
    const htmls: bool
    const prefix: string
    /** `_keggroom`: the directory recorded by `makeRoom`. */
    var keggroom: Option<string>
    var pics: seq<string>
    var pages: seq<Reply>

    /** `MapsFetcher(color_objs, pictures, URLs, prefix, threads)`. */
    constructor (colorObjs: seq<KeggColor>, pictures: bool, urls: bool, prefix: string, threads: int)
      ensures fresh(kegg) && kegg.numThreads == threads && kegg.handlers == [] && kegg.pool == {}
      ensures kegg.substatus == 0 && kegg.maxsubstatus == 0 && kegg.failure == None
      ensures colors == colorObjs && this.pictures == pictures && htmls == urls && this.prefix == prefix
      ensures keggroom == None && pics == [] && pages == []
    {
      kegg := new BaseKegg(threads);
      colors := colorObjs;
      this.pictures := pictures;
      htmls := urls;
      this.prefix := prefix;
      keggroom := None;
      pics, pages := [], [];
    }

    /** `makeRoom()`: only the directory it records; creating it is not
        modelled. */
    method MakeRoom(cwd: string)
      modifies this`keggroom
      ensures keggroom == Some(KeggRoom(cwd, prefix))
    {
      keggroom := Some(KeggRoom(cwd, prefix));
    }

    /** One chunk of `getMaps`: the chunk is run on the pool, then every
        handler is scanned. */
    method PicsChunk(piece: seq<KeggColor>, asks: Requests, room: string, remote: Remote) returns (names: seq<string>)
      requires kegg.Ready() && |piece| <= kegg.numThreads
      modifies kegg`substatus, kegg.pool
      ensures kegg.Ready() && kegg.handlers == old(kegg.handlers)
      ensures kegg.substatus == Bump(old(kegg.substatus), kegg.numThreads, kegg.maxsubstatus)
      ensures var d := Dedup(piece); names == Gather(ServedAll(d, asks, remote), |d|, NameFiles(room))
    {
      CallsOfFit(piece, asks);
      kegg.RunChunk(piece, CallsOf(piece, asks), remote);
      names := ScanPics(kegg.handlers, Slots(kegg.handlers), room);
      ChunkGather(piece, asks, remote, NameFiles(room), |kegg.handlers|);
    }

    /** The chunks of `getMaps`, one after another. */
    method PicsLoop(chunks: seq<seq<KeggColor>>, asks: Requests, room: string, remote: Remote) returns (names: seq<string>)
      requires kegg.Ready() && forall i :: 0 <= i < |chunks| ==> |chunks[i]| <= kegg.numThreads
      modifies kegg`substatus, kegg.pool
      ensures kegg.Ready() && kegg.handlers == old(kegg.handlers)
      ensures names == Collected(chunks, |chunks|, asks, remote, NameFiles(room))
      ensures kegg.substatus == Progress(old(kegg.substatus), |chunks|, kegg.numThreads, kegg.maxsubstatus)
    {
      names := [];
      var c := 0;
      while c < |chunks|
        invariant 0 <= c <= |chunks|
        invariant kegg.Ready() && kegg.handlers == old(kegg.handlers)
        invariant names == Collected(chunks, c, asks, remote, NameFiles(room))
        invariant kegg.substatus == Progress(old(kegg.substatus), c, kegg.numThreads, kegg.maxsubstatus)
      {
        var more := PicsChunk(chunks[c], asks, room, remote);
        names := names + more;
        c := c + 1;
      }
    }

    /** `getMaps`: chunk after chunk, every handler with a truthy picture
        adds the file the picture is written to. */
    method GetMaps(asks: Requests, remote: Remote) returns (ghost chunks: seq<seq<KeggColor>>, ghost rounds: nat)
      requires kegg.Ready() && keggroom.Some?
      modifies this`pics, kegg`substatus, kegg.pool
      ensures kegg.Ready() && kegg.handlers == old(kegg.handlers)
      ensures SpanOf(chunks, colors, kegg.numThreads) && pics == old(pics) + Pictures(keggroom.value, chunks, asks, remote)
      ensures kegg.Progressed(old(kegg.substatus), |colors|, rounds)
    {
      var room := keggroom.value;
      var cs := GetSpan(colors, kegg.numThreads);
      chunks := cs;
      var names := PicsLoop(cs, asks, room, remote);
      CollectedAll(chunks, |chunks|, asks, remote, NameFiles(room));
      DedupUpToEach(chunks, |chunks|);
      assert chunks[..|chunks|] == chunks;
      FlattenCount(chunks, kegg.numThreads);
      pics := pics + names;
      rounds := |chunks|;
    }

    /** One chunk of `getPages`. */
    method PagesChunk(piece: seq<KeggColor>, asks: Requests, remote: Remote) returns (urls: seq<Reply>)
      requires kegg.Ready() && |piece| <= kegg.numThreads
      modifies kegg`substatus, kegg.pool
      ensures kegg.Ready() && kegg.handlers == old(kegg.handlers)
      ensures kegg.substatus == Bump(old(kegg.substatus), kegg.numThreads, kegg.maxsubstatus)
      ensures var d := Dedup(piece); urls == Gather(ServedAll(d, asks, remote), |d|, PageOf)
    {
      CallsOfFit(piece, asks);
      kegg.RunChunk(piece, CallsOf(piece, asks), remote);
      urls := ScanPages(kegg.handlers, Slots(kegg.handlers));
      ChunkGather(piece, asks, remote, PageOf, |kegg.handlers|);
    }

    /** The chunks of `getPages`, one after another. */
    method PagesLoop(chunks: seq<seq<KeggColor>>, asks: Requests, remote: Remote) returns (urls: seq<Reply>)
      requires kegg.Ready() && forall i :: 0 <= i < |chunks| ==> |chunks[i]| <= kegg.numThreads
      modifies kegg`substatus, kegg.pool
      ensures kegg.Ready() && kegg.handlers == old(kegg.handlers)
      ensures urls == Collected(chunks, |chunks|, asks, remote, PageOf)
      ensures kegg.substatus == Progress(old(kegg.substatus), |chunks|, kegg.numThreads, kegg.maxsubstatus)
    {
      urls := [];
      var c := 0;
      while c < |chunks|
        invariant 0 <= c <= |chunks|
        invariant kegg.Ready() && kegg.handlers == old(kegg.handlers)
        invariant urls == Collected(chunks, c, asks, remote, PageOf)
        invariant kegg.substatus == Progress(old(kegg.substatus), c, kegg.numThreads, kegg.maxsubstatus)
      {
        var more := PagesChunk(chunks[c], asks, remote);
        urls := urls + more;
        c := c + 1;
      }
    }

    /** `getPages`: chunk after chunk, every handler with a truthy URL adds
        it. */
    method GetPages(asks: Requests, remote: Remote) returns (ghost chunks: seq<seq<KeggColor>>, ghost rounds: nat)
      requires kegg.Ready()
      modifies this`pages, kegg`substatus, kegg.pool
      ensures kegg.Ready() && kegg.handlers == old(kegg.handlers)
      ensures SpanOf(chunks, colors, kegg.numThreads) && pages == old(pages) + Urls(chunks, asks, remote)
      ensures kegg.Progressed(old(kegg.substatus), |colors|, rounds)
    {
      var cs := GetSpan(colors, kegg.numThreads);
      chunks := cs;
      var urls := PagesLoop(cs, asks, remote);
      CollectedAll(chunks, |chunks|, asks, remote, PageOf);
      DedupUpToEach(chunks, |chunks|);
      assert chunks[..|chunks|] == chunks;
      FlattenCount(chunks, kegg.numThreads);
      pages := pages + urls;
      rounds := |chunks|;
    }

    /** The phase of run that fetches the pictures: its progress maximum
        set first, then `getMaps`, `cleanHandlers()` and `resetSubStatus()`. */
    method PicturePhase(asks: Requests, remote: Remote) returns (ghost chunks: seq<seq<KeggColor>>)
      requires kegg.Ready() && keggroom.Some?
      modifies this`pics, kegg`substatus, kegg`maxsubstatus, kegg.pool
      ensures kegg.Ready() && kegg.handlers == old(kegg.handlers) && kegg.substatus == 0
      ensures SpanOf(chunks, colors, kegg.numThreads) && pics == old(pics) + Pictures(keggroom.value, chunks, asks, remote)
      ensures forall j :: 0 <= j < |kegg.handlers| ==> kegg.handlers[j].input == None && kegg.handlers[j].result == None
    {
      kegg.maxsubstatus := |colors|;
      ghost var rounds;
      chunks, rounds := GetMaps(asks, remote);
      kegg.CleanHandlers();
      kegg.ResetSubStatus();
    }

    /** The phase of run that fetches the URLs, likewise with `getPages`. */
    method PagePhase(asks: Requests, remote: Remote) returns (ghost chunks: seq<seq<KeggColor>>)
      requires kegg.Ready()
      modifies this`pages, kegg`substatus, kegg`maxsubstatus, kegg.pool
      ensures kegg.Ready() && kegg.handlers == old(kegg.handlers) && kegg.substatus == 0
      ensures SpanOf(chunks, colors, kegg.numThreads) && pages == old(pages) + Urls(chunks, asks, remote)
      ensures forall j :: 0 <= j < |kegg.handlers| ==> kegg.handlers[j].input == None && kegg.handlers[j].result == None
    {
      kegg.maxsubstatus := |colors|;
      ghost var rounds;
      chunks, rounds := GetPages(asks, remote);
      kegg.CleanHandlers();
      kegg.ResetSubStatus();
    }

    /** The phases of `run` once connected: the pictures when asked for,
        then the URLs when asked for. */
    method Proceed(picAsks: Requests, urlAsks: Requests, remote: Remote)
      returns (ghost picChunks: seq<seq<KeggColor>>, ghost pageChunks: seq<seq<KeggColor>>)
      requires kegg.Ready() && keggroom.Some?
      modifies this`pics, this`pages, kegg`substatus, kegg`maxsubstatus, kegg.pool
      ensures kegg.Ready() && kegg.handlers == old(kegg.handlers)
      ensures pictures ==> SpanOf(picChunks, colors, kegg.numThreads)
      ensures htmls ==> SpanOf(pageChunks, colors, kegg.numThreads)
      ensures pics == old(pics) + if pictures then Pictures(keggroom.value, picChunks, picAsks, remote) else []
      ensures pages == old(pages) + if htmls then Urls(pageChunks, urlAsks, remote) else []
      ensures kegg.substatus == if pictures || htmls then 0 else old(kegg.substatus)
    {
      picChunks, pageChunks := [], [];
      if pictures {
        picChunks := PicturePhase(picAsks, remote);
      }
      if htmls {
        pageChunks := PagePhase(urlAsks, remote);
      }
    }

    /** `run`: record the directory, connect the pool, then the phases.
        When a session cannot connect the run stops with a failure: the
        sessions opened before it stay in the pool, and nothing is
        collected. Every color object's `getAll()` is taken once, when the
        run starts. */
    method Run(cwd: string, dial: (nat, nat) -> bool, remote: Remote)
      returns (ghost picChunks: seq<seq<KeggColor>>, ghost pageChunks: seq<seq<KeggColor>>)
      requires kegg.Valid() && kegg.numThreads >= 1
      modifies this`keggroom, this`pics, this`pages, kegg`handlers, kegg`pool, kegg`failure,
               kegg`substatus, kegg`maxsubstatus, kegg.pool
      ensures kegg.Valid() && keggroom == Some(KeggRoom(cwd, prefix))
      ensures |kegg.handlers| == |old(kegg.handlers)| + Opened(dial, kegg.numThreads)
      ensures forall j :: 0 <= j < |old(kegg.handlers)| ==> kegg.handlers[j] == old(kegg.handlers)[j]
      ensures var up := forall i :: 0 <= i < kegg.numThreads ==> SessionUp(dial, i);
              if up then
                (pictures ==> SpanOf(picChunks, colors, kegg.numThreads)) &&
                (htmls ==> SpanOf(pageChunks, colors, kegg.numThreads)) &&
                pics == old(pics) + (if pictures then Pictures(KeggRoom(cwd, prefix), picChunks, old(RequestsOf(colors, true)), remote) else []) &&
                pages == old(pages) + (if htmls then Urls(pageChunks, old(RequestsOf(colors, false)), remote) else []) &&
                kegg.failure == old(kegg.failure) &&
                kegg.substatus == if pictures || htmls then 0 else old(kegg.substatus)
              else
                pics == old(pics) && pages == old(pages) && kegg.failure == Some(ConnectFailure) &&
                kegg.substatus == old(kegg.substatus) && kegg.maxsubstatus == old(kegg.maxsubstatus)
    {
      var picAsks, urlAsks := RequestsOf(colors, true), RequestsOf(colors, false);
      MakeRoom(cwd);
      var ok := kegg.Connect(dial);
      assert pics == old(pics) && pages == old(pages) && keggroom == Some(KeggRoom(cwd, prefix));
      if !ok {
        kegg.SendFailure(ConnectFailure);
        picChunks, pageChunks := [], [];
        return;
      }
      picChunks, pageChunks := Proceed(picAsks, urlAsks, remote);
    }
  }

}
