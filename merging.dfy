/**
 * The merge scans that end every chunk of a mapper phase, and what a whole
 * phase adds up to.
 *
 * A detail phase writes `d[handler.input] = value(handler.result)` for every
 * handler whose result is truthy; a discovery phase appends the ids a result
 * lists to `links[handler.input]` and gives every id not seen before a `None`
 * placeholder in the next phase's detail dictionary.
 *
 * What a whole phase leaves is described in terms of `hit`, the outcome of
 * each entry's request; `Hits(remote, ep)` is the outcome the service gives.
 */
module Merging {

  import opened Wrappers
  import opened KeggApi
  import opened Pool
  import opened MapParsing

  /** A detail dictionary: an entry's title, or None while it is only known
      by id. */
  type Details = map<Id, Option<Reply>>

  /** A link dictionary: the ids an entry leads to, in discovery order. */
  type LinkMap = map<Id, seq<Id>>

  /** The outcome of one entry's request: a reply, or None when there is
      nothing to merge. */
  type Outcome = Id -> Option<Reply>

  /** What one request contributes to a merge: its reply when the request
      succeeded with a truthy result. */
  function Hit(remote: Remote, ep: Endpoint, id: Id): Option<Reply>
  {
    var r := Fetch(true, remote, ep, id, Retries);
    if r.Some? && Truthy(r.value) then r else None
  }

  /** The outcome of every entry's request at one endpoint. */
  function Hits(remote: Remote, ep: Endpoint): Outcome
  {
    (id: Id) => Hit(remote, ep, id)
  }

  /** One call per position of a chunk: none for the ids to `skip`. */
  function IdCalls(piece: seq<Id>, ep: Endpoint, skip: seq<Id>): (calls: seq<Option<Call>>)
    ensures CallsFit(piece, calls)
  {
    seq(|piece|, i requires 0 <= i < |piece| => if piece[i] in skip then None else Some(Call(ep, piece[i])))
  }

  /** The last handler of a scan holds the outcome of entry `x`, or nothing. */
  lemma ExpectedLast(piece: seq<Id>, ep: Endpoint, skip: seq<Id>, remote: Remote, m: nat)
    requires m < |piece|
    ensures var s := Expected(piece, IdCalls(piece, ep, skip), remote, m);
            if FirstAt(piece, m) && piece[m] !in skip then
              s.input == Some(piece[m]) &&
              (Hits(remote, ep)(piece[m]).Some? <==> s.result.Some? && Truthy(s.result.value)) &&
              (Hits(remote, ep)(piece[m]).Some? ==> s.result == Hits(remote, ep)(piece[m]))
            else s == Slot(None, None)
  {
  }

  // ---------------------------------------------------------------------
  // Detail merges

  /** A title as the detail dictionaries store it. */
  function AsTitle(r: Reply): Option<Reply>
  {
    Some(r)
  }

  /** The text of a reply; a reply of another shape reads as empty. */
  function TextOf(r: Reply): string
  {
    if r.Text? then r.text else []
  }

  /** `MapParser(result).map`: the map fragment of an HTML page. */
  function MapOf(r: Reply): seq<string>
  {
    Fragment(TextOf(r))
  }

  /** One handler of the scan `for handler in handlers: if handler.result:
      d[handler.input] = f(handler.result)`. */
  function PutValue<V>(d: map<Id, V>, s: Slot, f: Reply -> V): map<Id, V>
  {
    match s
    case Slot(Some(id), Some(r)) => if Truthy(r) then d[id := f(r)] else d
    case _ => d
  }

  /** The scan over the first `n` handlers. */
  function PutFirst<V>(d: map<Id, V>, slots: seq<Slot>, n: nat, f: Reply -> V): map<Id, V>
    requires n <= |slots|
  {
    if n == 0 then d else PutValue(PutFirst(d, slots, n - 1, f), slots[n - 1], f)
  }

  /** The whole scan, handler by handler. */
  function PutValues<V>(d: map<Id, V>, slots: seq<Slot>, f: Reply -> V): map<Id, V>
  {
    PutFirst(d, slots, |slots|, f)
  }

  /** Entry `k` gets a new value from a phase over `ids`: it is listed, not
      avoided, and its request gave a truthy result. */
  predicate Wins(ids: set<Id>, skip: seq<Id>, hit: Outcome, k: Id)
  {
    k in ids && k !in skip && hit(k).Some?
  }

  /** What a detail phase over `ids` leaves, described directly: every
      winning entry holds its reply, every other entry its old value. */
  function Override<V>(d: map<Id, V>, ids: set<Id>, skip: seq<Id>, hit: Outcome, f: Reply -> V): map<Id, V>
  {
    map k | k in d.Keys + (set i | i in ids && Wins(ids, skip, hit, i)) ::
      if Wins(ids, skip, hit, k) then f(hit(k).value) else d[k]
  }

  /** A detail phase only adds the winning entries, keeps the value of every
      entry it does not win and in particular of every avoided entry, and
      stores the reply of every entry it wins. */
  lemma OverrideSpec<V>(d: map<Id, V>, ids: set<Id>, skip: seq<Id>, hit: Outcome, f: Reply -> V)
    ensures forall k :: k in Override(d, ids, skip, hit, f) <==> k in d || Wins(ids, skip, hit, k)
    ensures forall k :: k in d && !Wins(ids, skip, hit, k) ==> Override(d, ids, skip, hit, f)[k] == d[k]
    ensures forall k :: k in skip && k in d ==> Override(d, ids, skip, hit, f)[k] == d[k]
    ensures forall k :: Wins(ids, skip, hit, k) ==> Override(d, ids, skip, hit, f)[k] == f(hit(k).value)
  {
  }

  /** Adding one entry to the phase's ids writes at most that entry. */
  lemma OverrideAdd<V>(d: map<Id, V>, ids: set<Id>, x: Id, skip: seq<Id>, hit: Outcome, f: Reply -> V)
    ensures Override(d, ids + {x}, skip, hit, f) ==
              if x !in skip && hit(x).Some? then Override(d, ids, skip, hit, f)[x := f(hit(x).value)]
              else Override(d, ids, skip, hit, f)
  {
    var a := Override(d, ids + {x}, skip, hit, f);
    var o := Override(d, ids, skip, hit, f);
    var b := if x !in skip && hit(x).Some? then o[x := f(hit(x).value)] else o;
    assert a.Keys == b.Keys;
    forall k | k in a ensures a[k] == b[k] {
    }
  }

  /** Running a phase over `a` and then over `b` is one phase over both. */
  lemma OverrideCompose<V>(d: map<Id, V>, a: set<Id>, b: set<Id>, skip: seq<Id>, hit: Outcome, f: Reply -> V)
    ensures Override(Override(d, a, skip, hit, f), b, skip, hit, f) == Override(d, a + b, skip, hit, f)
  {
    var l := Override(Override(d, a, skip, hit, f), b, skip, hit, f);
    var r := Override(d, a + b, skip, hit, f);
    assert l.Keys == r.Keys;
    forall k | k in l ensures l[k] == r[k] {
    }
  }

  /** A phase over no ids changes nothing. */
  lemma OverrideNone<V>(d: map<Id, V>, skip: seq<Id>, hit: Outcome, f: Reply -> V)
    ensures Override(d, {}, skip, hit, f) == d
  {
    assert Override(d, {}, skip, hit, f).Keys == d.Keys;
  }

  /** A detail phase over the dictionary's own keys adds no key: it only
      fills in values. */
  lemma OverrideOwnKeys<V>(d: map<Id, V>, skip: seq<Id>, hit: Outcome, f: Reply -> V)
    ensures Override(d, d.Keys, skip, hit, f).Keys == d.Keys
  {
  }

  /** The first `n` handlers' scan does not look past handler `n`. */
  lemma {:induction false} PutFirstPrefix<V>(d: map<Id, V>, slots: seq<Slot>, s: Slot, n: nat, f: Reply -> V)
    requires n <= |slots|
    ensures PutFirst(d, slots + [s], n, f) == PutFirst(d, slots, n, f)
  {
    if n > 0 {
      PutFirstPrefix(d, slots, s, n - 1, f);
      assert (slots + [s])[n - 1] == slots[n - 1];
    }
  }

  /** One more handler in a detail scan. */
  lemma PutValuesSnoc<V>(d: map<Id, V>, slots: seq<Slot>, s: Slot, f: Reply -> V)
    ensures PutValues(d, slots + [s], f) == PutValue(PutValues(d, slots, f), s, f)
  {
    PutFirstPrefix(d, slots, s, |slots|, f);
  }

  /** Handler `m` of a detail scan writes the reply of entry `piece[m]` when
      `m` is its first occurrence, the entry is not avoided and its request
      gave a truthy result, and nothing otherwise. */
  lemma SlotStep<V>(d: map<Id, V>, piece: seq<Id>, ep: Endpoint, skip: seq<Id>, remote: Remote, f: Reply -> V, m: nat)
    requires m < |piece|
    ensures var calls := IdCalls(piece, ep, skip);
            var p := PutValues(d, ExpectedSlots(piece, calls, remote, m), f);
            var x := piece[m];
            PutValues(d, ExpectedSlots(piece, calls, remote, m + 1), f) ==
              if FirstAt(piece, m) && x !in skip && Hits(remote, ep)(x).Some? then p[x := f(Hits(remote, ep)(x).value)]
              else p
  {
    var calls := IdCalls(piece, ep, skip);
    var prev := ExpectedSlots(piece, calls, remote, m);
    var s := Expected(piece, calls, remote, m);
    assert ExpectedSlots(piece, calls, remote, m + 1) == prev + [s];
    PutValuesSnoc(d, prev, s, f);
    ExpectedLast(piece, ep, skip, remote, m);
  }

  /** The phase over one more position of a chunk: a repeated id adds
      nothing. */
  lemma IdsStep<V>(d: map<Id, V>, piece: seq<Id>, skip: seq<Id>, hit: Outcome, f: Reply -> V, m: nat)
    requires m < |piece|
    ensures var o := Override(d, SetOf(piece[..m]), skip, hit, f);
            var x := piece[m];
            Override(d, SetOf(piece[..m + 1]), skip, hit, f) ==
              if FirstAt(piece, m) && x !in skip && hit(x).Some? then o[x := f(hit(x).value)] else o
  {
    var x := piece[m];
    assert piece[..m + 1] == piece[..m] + [x];
    assert SetOf(piece[..m + 1]) == SetOf(piece[..m]) + {x};
    if FirstAt(piece, m) {
      OverrideAdd(d, SetOf(piece[..m]), x, skip, hit, f);
    } else {
      assert SetOf(piece[..m]) + {x} == SetOf(piece[..m]);
    }
  }

  /** The scan after one chunk of a detail phase: the handlers hold the
      outcomes of the chunk's non-avoided ids (reset before dispatch, so no
      handler holds anything else), and the scan writes exactly the chunk's
      winning entries. */
  lemma {:induction false} ChunkValues<V>(d: map<Id, V>, piece: seq<Id>, ep: Endpoint, skip: seq<Id>, remote: Remote,
                                          f: Reply -> V, n: nat)
    ensures PutValues(d, ExpectedSlots(piece, IdCalls(piece, ep, skip), remote, n), f) ==
              Override(d, SetOf(piece[..if n < |piece| then n else |piece|]), skip, Hits(remote, ep), f)
  {
    if n == 0 {
      assert SetOf(piece[..0]) == {};
      OverrideNone(d, skip, Hits(remote, ep), f);
    } else {
      var m := n - 1;
      ChunkValues(d, piece, ep, skip, remote, f, m);
      if m < |piece| {
        SlotStep(d, piece, ep, skip, remote, f, m);
        IdsStep(d, piece, skip, Hits(remote, ep), f, m);
      } else {
        var calls := IdCalls(piece, ep, skip);
        var prev := ExpectedSlots(piece, calls, remote, m);
        var s := Expected(piece, calls, remote, m);
        assert ExpectedSlots(piece, calls, remote, n) == prev + [s];
        assert s == Slot(None, None);
        PutValuesSnoc(d, prev, s, f);
      }
    }
  }

  /** Every chunk of a detail phase, one after another: the dictionary after
      chunks `0..c` is the phase over the ids of those chunks. */
  lemma ValueStep<V>(d0: map<Id, V>, d: map<Id, V>, chunks: seq<seq<Id>>, c: nat, n: nat,
                     ep: Endpoint, skip: seq<Id>, remote: Remote, f: Reply -> V)
    requires c < |chunks| && |chunks[c]| <= n
    requires d == Override(d0, SetOf(Flatten(chunks[..c])), skip, Hits(remote, ep), f)
    ensures PutValues(d, ExpectedSlots(chunks[c], IdCalls(chunks[c], ep, skip), remote, n), f) ==
              Override(d0, SetOf(Flatten(chunks[..c + 1])), skip, Hits(remote, ep), f)
  {
    var piece, hit := chunks[c], Hits(remote, ep);
    var done := SetOf(Flatten(chunks[..c]));
    assert SetOf(Flatten(chunks[..c + 1])) == done + SetOf(piece) by {
      assert chunks[..c + 1] == chunks[..c] + [piece];
      FlattenSnoc(chunks[..c], piece);
      SetOfConcat(Flatten(chunks[..c]), piece);
    }
    assert PutValues(d, ExpectedSlots(piece, IdCalls(piece, ep, skip), remote, n), f) ==
           Override(d, SetOf(piece), skip, hit, f) by {
      ChunkValues(d, piece, ep, skip, remote, f, n);
      assert piece[..|piece|] == piece;
    }
    OverrideCompose(d0, done, SetOf(piece), skip, hit, f);
  }

  /** The dictionary after the first `c` chunks of a detail phase, as the
      scan of each chunk's handlers leaves it. */
  function ScannedValues<V>(d: map<Id, V>, chunks: seq<seq<Id>>, c: nat, ep: Endpoint, skip: seq<Id>,
                            remote: Remote, f: Reply -> V, n: nat): map<Id, V>
    requires c <= |chunks|
  {
    if c == 0 then d
    else PutValues(ScannedValues(d, chunks, c - 1, ep, skip, remote, f, n),
                   ExpectedSlots(chunks[c - 1], IdCalls(chunks[c - 1], ep, skip), remote, n), f)
  }

  /** Scanning chunk after chunk is the phase over the ids of those
      chunks. */
  lemma {:induction false} ScannedValuesOverride<V>(d: map<Id, V>, chunks: seq<seq<Id>>, c: nat, ep: Endpoint,
                                                    skip: seq<Id>, remote: Remote, f: Reply -> V, n: nat)
    requires c <= |chunks| && forall i :: 0 <= i < |chunks| ==> |chunks[i]| <= n
    ensures ScannedValues(d, chunks, c, ep, skip, remote, f, n) ==
              Override(d, SetOf(Flatten(chunks[..c])), skip, Hits(remote, ep), f)
  {
    if c == 0 {
      assert SetOf(Flatten(chunks[..0])) == {};
      OverrideNone(d, skip, Hits(remote, ep), f);
    } else {
      var k := c - 1;
      ScannedValuesOverride(d, chunks, k, ep, skip, remote, f, n);
      ValueStep(d, ScannedValues(d, chunks, k, ep, skip, remote, f, n), chunks, k, n, ep, skip, remote, f);
    }
  }

  // ---------------------------------------------------------------------
  // Enumerating a dictionary

  /** `d.keys()`: some enumeration of the keys, each once. */
  method KeysOf<V>(d: map<Id, V>) returns (ks: seq<Id>)
    ensures Distinct(ks) && SetOf(ks) == d.Keys
  {
    var rest := d.Keys;
    ks := [];
    while rest != {}
      invariant Distinct(ks)
      invariant SetOf(ks) + rest == d.Keys
      invariant SetOf(ks) !! rest
      decreases |rest|
    {
      var k :| k in rest;
      ks := ks + [k];
      rest := rest - {k};
    }
  }

  // ---------------------------------------------------------------------
  // The scans themselves

  /** `for handler in handlers: if not handler.result: continue;
      d[handler.input] = handler.result`. */
  method ScanTitles(hs: seq<KeggAPI>, ghost slots: seq<Slot>, d: Details) returns (r: Details)
    requires slots == Slots(hs)
    ensures r == PutValues(d, slots, AsTitle)
  {
    r := d;
    for i := 0 to |hs|
      invariant r == PutFirst(d, slots, i, AsTitle)
    {
      var h := hs[i];
      if h.input.Some? && h.result.Some? && Truthy(h.result.value) {
        r := r[h.input.value := Some(h.result.value)];
      }
    }
  }

  /** `for handler in handlers: if not handler.result: continue;
      parser = MapParser(handler.result); d[handler.input] = parser.map`. */
  method ScanMaps(hs: seq<KeggAPI>, ghost slots: seq<Slot>, d: map<Id, seq<string>>) returns (r: map<Id, seq<string>>)
    requires slots == Slots(hs)
    ensures r == PutValues(d, slots, MapOf)
  {
    r := d;
    for i := 0 to |hs|
      invariant r == PutFirst(d, slots, i, MapOf)
    {
      var h := hs[i];
      if h.input.Some? && h.result.Some? && Truthy(h.result.value) {
        var parser := new MapParser(TextOf(h.result.value));
        r := r[h.input.value := parser.mapLines];
      }
    }
  }

}
