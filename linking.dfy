/**
 * The discovery merges of the mapper phases: a result lists the ids an
 * entry leads to; they are appended to `links[entry]` and every id not seen
 * before gets a `None` placeholder in the next phase's detail dictionary.
 */
module Linking {

  import opened Wrappers
  import opened KeggApi
  import opened Pool
  import opened Merging

  /** A link dictionary together with the detail dictionary that receives
      the placeholders. */
  datatype Linked = Linked(links: LinkMap, det: Details)

  /** `links.get(k, [])`. */
  function Get(m: LinkMap, k: Id): seq<Id>
  {
    if k in m then m[k] else []
  }

  /** The links of `get_linkdb_by_entry` that `getReactions` keeps: those
      whose type contains 'original'. */
  function Originals(ls: seq<Link>): seq<Id>
  {
    if ls == [] then []
    else
      var p := Originals(ls[..|ls| - 1]);
      var l := ls[|ls| - 1];
      if PyStr.Contains(l.linkType, "original") then p + [l.entryId2] else p
  }

  /** `getReactions` keeps exactly the linked entries of the links typed
      'original'. */
  lemma {:induction false} OriginalsSpec(ls: seq<Link>)
    ensures |Originals(ls)| <= |ls|
    ensures forall t :: t in Originals(ls) <==>
              exists i :: 0 <= i < |ls| && ls[i].entryId2 == t && PyStr.Contains(ls[i].linkType, "original")
  {
    if ls != [] {
      var init := ls[..|ls| - 1];
      OriginalsSpec(init);
      forall t ensures t in Originals(ls) <==>
                 exists i :: 0 <= i < |ls| && ls[i].entryId2 == t && PyStr.Contains(ls[i].linkType, "original") {
        if t in Originals(init) {
          var i :| 0 <= i < |init| && init[i].entryId2 == t && PyStr.Contains(init[i].linkType, "original");
          assert ls[i] == init[i];
        }
        if exists i :: 0 <= i < |ls| && ls[i].entryId2 == t && PyStr.Contains(ls[i].linkType, "original") {
          var i :| 0 <= i < |ls| && ls[i].entryId2 == t && PyStr.Contains(ls[i].linkType, "original");
          if i < |init| {
            assert init[i] == ls[i];
          }
        }
      }
    }
  }

  /** The ids a discovery phase reads off a result: a list of ids as it is,
      and of a list of links only the 'original' ones. */
  function Targets(r: Reply): seq<Id>
  {
    match r
    case Items(xs) => xs
    case Links(ls) => Originals(ls)
    case Text(_) => []
  }

  /** `det` with a `None` placeholder for each id of `ts` it lacks. */
  function Placeholders(det: Details, ts: set<Id>): Details
  {
    map k | k in det.Keys + ts :: if k in det then det[k] else None
  }

  /** What the inner loop of a discovery scan does for the handler of entry
      `id`: the targets are appended to `links[id]` (created on first use)
      and every target without a detail entry gets a `None` placeholder. */
  function AddTargets(l: Linked, id: Id, ts: seq<Id>): Linked
  {
    Linked(if ts == [] then l.links else l.links[id := Get(l.links, id) + ts],
           Placeholders(l.det, SetOf(ts)))
  }

  /** Placeholders added in two rounds are the placeholders of both. */
  lemma PlaceholdersTwice(det: Details, a: set<Id>, b: set<Id>)
    ensures Placeholders(Placeholders(det, a), b) == Placeholders(det, a + b)
  {
    var l, r := Placeholders(Placeholders(det, a), b), Placeholders(det, a + b);
    assert l.Keys == r.Keys;
    forall k | k in l ensures l[k] == r[k] {
    }
  }

  /** One iteration of the inner loop: `links[id].append(t)`, and
      `det[t] = None` unless `t` is already there. */
  lemma AddTargetsSnoc(l: Linked, id: Id, ts: seq<Id>, t: Id)
    ensures var p := AddTargets(l, id, ts);
            AddTargets(l, id, ts + [t]) ==
              Linked(p.links[id := Get(p.links, id) + [t]], if t in p.det then p.det else p.det[t := None])
  {
    var p := AddTargets(l, id, ts);
    var g := Get(l.links, id);
    if ts == [] {
      assert g + [t] == g + (ts + [t]);
    } else {
      assert Get(p.links, id) == g + ts;
      assert (g + ts) + [t] == g + (ts + [t]);
    }
    assert SetOf(ts + [t]) == SetOf(ts) + {t};
    PlaceholdersTwice(l.det, SetOf(ts), {t});
    var one := Placeholders(p.det, {t});
    var step := if t in p.det then p.det else p.det[t := None];
    assert one.Keys == step.Keys;
    forall k | k in one ensures one[k] == step[k] {
    }
  }

  /** One handler of the discovery scan: a truthy result adds its targets
      under the handler's input. */
  function PutLink(l: Linked, s: Slot): Linked
  {
    match s
    case Slot(Some(id), Some(r)) => if Truthy(r) then AddTargets(l, id, Targets(r)) else l
    case _ => l
  }

  /** The discovery scan over the first `n` handlers. */
  function PutFirstLinks(l: Linked, slots: seq<Slot>, n: nat): Linked
    requires n <= |slots|
  {
    if n == 0 then l else PutLink(PutFirstLinks(l, slots, n - 1), slots[n - 1])
  }

  /** The discovery scan over a chunk's handlers. */
  function PutLinks(l: Linked, slots: seq<Slot>): Linked
  {
    PutFirstLinks(l, slots, |slots|)
  }

  /** The first `n` handlers' scan does not look past handler `n`. */
  lemma {:induction false} PutFirstLinksPrefix(l: Linked, slots: seq<Slot>, s: Slot, n: nat)
    requires n <= |slots|
    ensures PutFirstLinks(l, slots + [s], n) == PutFirstLinks(l, slots, n)
  {
    if n > 0 {
      PutFirstLinksPrefix(l, slots, s, n - 1);
      assert (slots + [s])[n - 1] == slots[n - 1];
    }
  }

  /** One more handler in a discovery scan. */
  lemma PutLinksSnoc(l: Linked, slots: seq<Slot>, s: Slot)
    ensures PutLinks(l, slots + [s]) == PutLink(PutLinks(l, slots), s)
  {
    PutFirstLinksPrefix(l, slots, s, |slots|);
  }

  /** Handling entry `x` in a discovery phase: a truthy result adds its
      targets. */
  function AddOne(l: Linked, x: Id, hit: Outcome): Linked
  {
    match hit(x)
    case None => l
    case Some(r) => AddTargets(l, x, Targets(r))
  }

  /** A discovery phase described by the ids it handles, in order. */
  function AddAll(l: Linked, ids: seq<Id>, hit: Outcome): Linked
  {
    if ids == [] then l else AddOne(AddAll(l, ids[..|ids| - 1], hit), ids[|ids| - 1], hit)
  }

  /** Handling one more id. */
  lemma AddAllSnoc(l: Linked, ids: seq<Id>, x: Id, hit: Outcome)
    ensures AddAll(l, ids + [x], hit) == AddOne(AddAll(l, ids, hit), x, hit)
  {
    assert (ids + [x])[..|ids|] == ids;
  }

  /** Handling `a` and then `b` is handling `a + b`. */
  lemma {:induction false} AddAllConcat(l: Linked, a: seq<Id>, b: seq<Id>, hit: Outcome)
    ensures AddAll(AddAll(l, a, hit), b, hit) == AddAll(l, a + b, hit)
  {
    if b == [] {
      assert a + b == a;
    } else {
      var init, x := b[..|b| - 1], b[|b| - 1];
      AddAllConcat(l, a, init, hit);
      assert a + b == (a + init) + [x];
      AddAllSnoc(l, a + init, x, hit);
    }
  }

  /** Handler `m` of a discovery scan adds the targets of entry `piece[m]`
      when `m` is its first occurrence and its request gave a truthy
      result, and nothing otherwise. */
  lemma LinkSlotStep(l: Linked, piece: seq<Id>, ep: Endpoint, remote: Remote, m: nat)
    requires m < |piece|
    ensures var calls := IdCalls(piece, ep, []);
            var p := PutLinks(l, ExpectedSlots(piece, calls, remote, m));
            var x := piece[m];
            PutLinks(l, ExpectedSlots(piece, calls, remote, m + 1)) ==
              if FirstAt(piece, m) && Hits(remote, ep)(x).Some? then AddTargets(p, x, Targets(Hits(remote, ep)(x).value))
              else p
  {
    var calls := IdCalls(piece, ep, []);
    var prev := ExpectedSlots(piece, calls, remote, m);
    var s := Expected(piece, calls, remote, m);
    assert ExpectedSlots(piece, calls, remote, m + 1) == prev + [s];
    PutLinksSnoc(l, prev, s);
    ExpectedLast(piece, ep, [], remote, m);
  }

  /** The handlers past the end of a chunk stay clean and add nothing. */
  lemma {:induction false} LinksBeyond(l: Linked, piece: seq<Id>, calls: seq<Option<Call>>, remote: Remote, n: nat)
    requires n >= |piece|
    ensures PutLinks(l, ExpectedSlots(piece, calls, remote, n)) == PutLinks(l, ExpectedSlots(piece, calls, remote, |piece|))
    decreases n
  {
    if n > |piece| {
      LinksBeyond(l, piece, calls, remote, n - 1);
      var prev := ExpectedSlots(piece, calls, remote, n - 1);
      var s := Expected(piece, calls, remote, n - 1);
      assert ExpectedSlots(piece, calls, remote, n) == prev + [s];
      assert s == Slot(None, None);
      PutLinksSnoc(l, prev, s);
    }
  }

  /** One more handler of a chunk, in the handler order. */
  lemma ChunkLinksStep(l: Linked, piece: seq<Id>, ep: Endpoint, remote: Remote, m: nat)
    requires m < |piece|
    requires PutLinks(l, ExpectedSlots(piece, IdCalls(piece, ep, []), remote, m)) ==
             AddAll(l, Dedup(piece[..m]), Hits(remote, ep))
    ensures PutLinks(l, ExpectedSlots(piece, IdCalls(piece, ep, []), remote, m + 1)) ==
            AddAll(l, Dedup(piece[..m + 1]), Hits(remote, ep))
  {
    LinkSlotStep(l, piece, ep, remote, m);
    DedupStep(piece, m);
    if FirstAt(piece, m) {
      AddAllSnoc(l, Dedup(piece[..m]), piece[m], Hits(remote, ep));
    }
  }

  /** The first `n` handlers of a chunk's discovery scan handle the ids of
      its first `n` positions in the order of their first occurrences: a
      repeated id reuses the handler of its first occurrence and is handled
      once. */
  lemma {:induction false} ChunkLinksUpTo(l: Linked, piece: seq<Id>, ep: Endpoint, remote: Remote, n: nat)
    requires n <= |piece|
    ensures PutLinks(l, ExpectedSlots(piece, IdCalls(piece, ep, []), remote, n)) ==
              AddAll(l, Dedup(piece[..n]), Hits(remote, ep))
  {
    if n > 0 {
      var m := n - 1;
      ChunkLinksUpTo(l, piece, ep, remote, m);
      ChunkLinksStep(l, piece, ep, remote, m);
    }
  }

  /** The scan after one chunk of a discovery phase, over a pool of `n`
      handlers at least as large as the chunk. */
  lemma ChunkLinks(l: Linked, piece: seq<Id>, ep: Endpoint, remote: Remote, n: nat)
    requires |piece| <= n
    ensures PutLinks(l, ExpectedSlots(piece, IdCalls(piece, ep, []), remote, n)) ==
              AddAll(l, Dedup(piece), Hits(remote, ep))
  {
    LinksBeyond(l, piece, IdCalls(piece, ep, []), remote, n);
    ChunkLinksUpTo(l, piece, ep, remote, |piece|);
    assert piece[..|piece|] == piece;
  }

  /** Every chunk of a discovery phase, one after another: the dictionaries
      after chunks `0..c` are the ids of those chunks handled in order, each
      chunk without repeats. */
  lemma LinkStep(l0: Linked, l: Linked, chunks: seq<seq<Id>>, c: nat, n: nat, ep: Endpoint, remote: Remote)
    requires c < |chunks| && |chunks[c]| <= n
    requires l == AddAll(l0, DedupEach(chunks[..c]), Hits(remote, ep))
    ensures PutLinks(l, ExpectedSlots(chunks[c], IdCalls(chunks[c], ep, []), remote, n)) ==
              AddAll(l0, DedupEach(chunks[..c + 1]), Hits(remote, ep))
  {
    var piece, hit := chunks[c], Hits(remote, ep);
    var done := DedupEach(chunks[..c]);
    assert DedupEach(chunks[..c + 1]) == done + Dedup(piece) by {
      assert chunks[..c + 1] == chunks[..c] + [piece];
      DedupEachSnoc(chunks[..c], piece);
    }
    assert PutLinks(l, ExpectedSlots(piece, IdCalls(piece, ep, []), remote, n)) == AddAll(l, Dedup(piece), hit) by {
      ChunkLinks(l, piece, ep, remote, n);
    }
    AddAllConcat(l0, done, Dedup(piece), hit);
  }

  /** The dictionaries after the first `c` chunks of a discovery phase, as
      the scan of each chunk's handlers leaves them. */
  function ScannedLinks(l: Linked, chunks: seq<seq<Id>>, c: nat, ep: Endpoint, remote: Remote, n: nat): Linked
    requires c <= |chunks|
  {
    if c == 0 then l
    else PutLinks(ScannedLinks(l, chunks, c - 1, ep, remote, n),
                  ExpectedSlots(chunks[c - 1], IdCalls(chunks[c - 1], ep, []), remote, n))
  }

  /** Scanning chunk after chunk adds the ids of each chunk, without
      repeats, in order. */
  lemma {:induction false} ScannedLinksAdd(l: Linked, chunks: seq<seq<Id>>, c: nat, ep: Endpoint, remote: Remote, n: nat)
    requires c <= |chunks| && forall i :: 0 <= i < |chunks| ==> |chunks[i]| <= n
    ensures ScannedLinks(l, chunks, c, ep, remote, n) == AddAll(l, DedupEach(chunks[..c]), Hits(remote, ep))
  {
    if c == 0 {
      assert chunks[..0] == [];
    } else {
      var prev := ScannedLinks(l, chunks, c - 1, ep, remote, n);
      ScannedLinksAdd(l, chunks, c - 1, ep, remote, n);
      LinkStep(l, prev, chunks, c - 1, n, ep, remote);
    }
  }

  /** Entry `k` gains a key in the link dictionary. */
  predicate Gains(ids: set<Id>, hit: Outcome, k: Id)
  {
    k in ids && hit(k).Some? && Targets(hit(k).value) != []
  }

  /** Every id listed by a truthy result of an entry of `ids`. */
  function Found(ids: set<Id>, hit: Outcome): set<Id>
  {
    set i, t | i in ids && hit(i).Some? && t in Targets(hit(i).value) :: t
  }

  /** The link dictionary a discovery phase over distinct ids leaves,
      described directly: each entry's list is extended by its own
      targets. */
  function LinksClosed(links: LinkMap, ids: set<Id>, hit: Outcome): LinkMap
  {
    map k | k in links.Keys + (set i | i in ids && Gains(ids, hit, i)) ::
      if k in ids && hit(k).Some? then Get(links, k) + Targets(hit(k).value) else links[k]
  }

  /** What a discovery phase over distinct ids leaves: the lists extended,
      and every target without a detail entry given a placeholder. */
  function LinkClosed(l: Linked, ids: set<Id>, hit: Outcome): Linked
  {
    Linked(LinksClosed(l.links, ids, hit), Placeholders(l.det, Found(ids, hit)))
  }

  /** The lists after handling one more id `x`. */
  lemma LinksClosedAdd(links: LinkMap, ids: set<Id>, x: Id, hit: Outcome)
    requires x !in ids
    ensures var o := LinksClosed(links, ids, hit);
            LinksClosed(links, ids + {x}, hit) ==
              if hit(x).None? || Targets(hit(x).value) == [] then o
              else o[x := Get(o, x) + Targets(hit(x).value)]
  {
    var o := LinksClosed(links, ids, hit);
    var a := LinksClosed(links, ids + {x}, hit);
    var b := if hit(x).None? || Targets(hit(x).value) == [] then o else o[x := Get(o, x) + Targets(hit(x).value)];
    assert Get(o, x) == Get(links, x);
    assert a.Keys == b.Keys;
    forall k | k in a ensures a[k] == b[k] {
    }
  }

  /** The targets found after handling one more id `x`. */
  lemma FoundAdd(ids: set<Id>, x: Id, hit: Outcome)
    ensures Found(ids + {x}, hit) == Found(ids, hit) + if hit(x).Some? then SetOf(Targets(hit(x).value)) else {}
  {
  }

  /** Handling one more id `x`, not handled before, in a discovery phase. */
  lemma LinkClosedAdd(l: Linked, ids: set<Id>, x: Id, hit: Outcome)
    requires x !in ids
    ensures LinkClosed(l, ids + {x}, hit) ==
              match hit(x)
              case None => LinkClosed(l, ids, hit)
              case Some(r) => AddTargets(LinkClosed(l, ids, hit), x, Targets(r))
  {
    LinksClosedAdd(l.links, ids, x, hit);
    FoundAdd(ids, x, hit);
    if hit(x).Some? {
      PlaceholdersTwice(l.det, Found(ids, hit), SetOf(Targets(hit(x).value)));
    } else {
      assert Found(ids, hit) + {} == Found(ids, hit);
    }
  }

  /** Over distinct ids the order does not matter: a discovery phase is
      `LinkClosed`. */
  lemma {:induction false} AddAllDistinct(l: Linked, ids: seq<Id>, hit: Outcome)
    requires Distinct(ids)
    ensures AddAll(l, ids, hit) == LinkClosed(l, SetOf(ids), hit)
  {
    if ids == [] {
      var c := LinkClosed(l, {}, hit);
      assert c.links.Keys == l.links.Keys;
      assert c.det.Keys == l.det.Keys;
    } else {
      var init, x := ids[..|ids| - 1], ids[|ids| - 1];
      assert ids == init + [x];
      assert Distinct(init);
      assert x !in init;
      AddAllDistinct(l, init, hit);
      assert SetOf(ids) == SetOf(init) + {x};
      LinkClosedAdd(l, SetOf(init), x, hit);
      AddAllSnoc(l, init, x, hit);
    }
  }

  /** Discovery only appends: every old list is a prefix of the new one,
      every old detail value is kept, every new detail entry is a `None`
      placeholder, and every new link key is one of the handled ids. */
  lemma {:induction false} AddAllGrows(l: Linked, ids: seq<Id>, hit: Outcome)
    ensures forall k :: k in l.links ==>
              k in AddAll(l, ids, hit).links && l.links[k] <= AddAll(l, ids, hit).links[k]
    ensures forall k :: k in AddAll(l, ids, hit).links && k !in l.links ==> k in ids
    ensures forall k :: k in l.det ==> k in AddAll(l, ids, hit).det && AddAll(l, ids, hit).det[k] == l.det[k]
    ensures forall k :: k in AddAll(l, ids, hit).det && k !in l.det ==> AddAll(l, ids, hit).det[k] == None
  {
    if ids != [] {
      var init, x := ids[..|ids| - 1], ids[|ids| - 1];
      AddAllGrows(l, init, hit);
      AddAllSnoc(l, init, x, hit);
      assert ids == init + [x];
      var p := AddAll(l, init, hit);
      var q := AddAll(l, ids, hit);
      if hit(x).Some? {
        var ts := Targets(hit(x).value);
        forall k | k in l.links ensures k in q.links && l.links[k] <= q.links[k] {
          if k == x && ts != [] {
            assert q.links[k] == p.links[k] + ts;
          }
        }
        forall k | k in q.links && k !in l.links ensures k in ids {
          if k != x {
            assert k in p.links;
          }
        }
      }
    }
  }

  /** Every target a discovery phase lists has a detail entry afterwards. */
  lemma {:induction false} AddAllListed(l: Linked, ids: seq<Id>, hit: Outcome)
    requires forall k, t :: k in l.links && t in l.links[k] ==> t in l.det
    ensures forall k, t :: k in AddAll(l, ids, hit).links && t in AddAll(l, ids, hit).links[k] ==>
              t in AddAll(l, ids, hit).det
  {
    if ids != [] {
      var init, x := ids[..|ids| - 1], ids[|ids| - 1];
      AddAllListed(l, init, hit);
      AddAllSnoc(l, init, x, hit);
      assert ids == init + [x];
      var p := AddAll(l, init, hit);
      if hit(x).Some? {
        var ts := Targets(hit(x).value);
        var q := AddAll(l, ids, hit);
        forall k, t | k in q.links && t in q.links[k] ensures t in q.det {
          if k == x && ts != [] {
            assert q.links[k] == Get(p.links, x) + ts;
          }
        }
      }
    }
  }

  // ---------------------------------------------------------------------
  // The scans themselves

  /** The inner loop for a list of ids: `for x in result: links[id].append(x);
      if x not in det: det[x] = None`. */
  method AppendIds(l: Linked, id: Id, xs: seq<Id>) returns (r: Linked)
    ensures r == AddTargets(l, id, xs)
  {
    var links, det := l.links, l.det;
    for j := 0 to |xs|
      invariant Linked(links, det) == AddTargets(l, id, xs[..j])
    {
      assert xs[..j + 1] == xs[..j] + [xs[j]];
      AddTargetsSnoc(l, id, xs[..j], xs[j]);
      if id !in links {
        links := links[id := []];
      }
      links := links[id := links[id] + [xs[j]]];
      if xs[j] !in det {
        det := det[xs[j] := None];
      }
    }
    assert xs[..|xs|] == xs;
    r := Linked(links, det);
  }

  /** The inner loop of `getReactions`: only links whose type contains
      'original' are recorded. */
  method AppendOriginals(l: Linked, id: Id, ls: seq<Link>) returns (r: Linked)
    ensures r == AddTargets(l, id, Originals(ls))
  {
    var links, det := l.links, l.det;
    for j := 0 to |ls|
      invariant Linked(links, det) == AddTargets(l, id, Originals(ls[..j]))
    {
      assert ls[..j + 1][..j] == ls[..j];
      var link := ls[j];
      if PyStr.Contains(link.linkType, "original") {
        assert Originals(ls[..j + 1]) == Originals(ls[..j]) + [link.entryId2];
        AddTargetsSnoc(l, id, Originals(ls[..j]), link.entryId2);
        if id !in links {
          links := links[id := []];
        }
        links := links[id := links[id] + [link.entryId2]];
        if link.entryId2 !in det {
          det := det[link.entryId2 := None];
        }
      }
    }
    assert ls[..|ls|] == ls;
    r := Linked(links, det);
  }

  /** The discovery scan over all handlers. */
  method ScanLinks(hs: seq<KeggAPI>, ghost slots: seq<Slot>, l: Linked) returns (r: Linked)
    requires slots == Slots(hs)
    ensures r == PutLinks(l, slots)
  {
    r := l;
    for i := 0 to |hs|
      invariant r == PutFirstLinks(l, slots, i)
    {
      var h := hs[i];
      if h.input.Some? && h.result.Some? && Truthy(h.result.value) {
        match h.result.value
        case Items(xs) =>
          r := AppendIds(r, h.input.value, xs);
        case Links(ls) =>
          r := AppendOriginals(r, h.input.value, ls);
        case Text(_) =>
      }
    }
  }

}
