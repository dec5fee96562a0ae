/**
 * BaseKegg: a pool of `numThreads` KEGG sessions ("handlers") and the chunk
 * machinery every mapper phase shares. A list of ids is cut into chunks of
 * at most `numThreads`; for each chunk the handlers are cleaned, the progress
 * counter is bumped, and id `piece[i]` is sent to handler `piece.index(id)`.
 * A repeated id in a chunk starts a second thread on the handler of its first
 * occurrence, and both write the same values, since replies are fixed per
 * try. All threads are joined before the results are read, so a chunk is
 * modelled as a sequential loop over the handlers.
 */
module Pool {

  import opened Wrappers
  import opened KeggApi

  /** A request to send for one position of a chunk: its endpoint and entry. */
  datatype Call = Call(ep: Endpoint, id: Id)

  /** The `input` and `result` slots of one handler. */
  datatype Slot = Slot(input: Option<Id>, result: Option<Reply>)

  // ---------------------------------------------------------------------
  // Lists

  /** The elements of a list, as a set. */
  function SetOf<T>(xs: seq<T>): set<T>
  {
    set x | x in xs
  }

  lemma SetOfConcat<T>(a: seq<T>, b: seq<T>)
    ensures SetOf(a + b) == SetOf(a) + SetOf(b)
  {
  }

  /** No element occurs twice. */
  predicate Distinct<T(==)>(xs: seq<T>)
  {
    forall i, j :: 0 <= i < j < |xs| ==> xs[i] != xs[j]
  }

  /** The chunks laid end to end. */
  function Flatten<T>(chunks: seq<seq<T>>): seq<T>
  {
    if chunks == [] then [] else chunks[0] + Flatten(chunks[1..])
  }

  lemma {:induction false} FlattenSnoc<T>(chunks: seq<seq<T>>, c: seq<T>)
    ensures Flatten(chunks + [c]) == Flatten(chunks) + c
  {
    if chunks == [] {
      assert [c][1..] == [];
    } else {
      assert (chunks + [c])[1..] == chunks[1..] + [c];
      FlattenSnoc(chunks[1..], c);
    }
  }

  /** A list without repeats has as many elements as its set. */
  lemma {:induction false} DistinctCard<T>(xs: seq<T>)
    requires Distinct(xs)
    ensures |SetOf(xs)| == |xs|
  {
    if xs != [] {
      var init, x := xs[..|xs| - 1], xs[|xs| - 1];
      assert xs == init + [x];
      assert Distinct(init);
      DistinctCard(init);
      assert x !in SetOf(init);
      assert SetOf(xs) == SetOf(init) + {x};
    }
  }

  /** Chunks of 1 to `w` elements hold between one and `w` elements per
      chunk. */
  lemma {:induction false} FlattenCount<T>(chunks: seq<seq<T>>, w: nat)
    requires forall i :: 0 <= i < |chunks| ==> 1 <= |chunks[i]| <= w
    ensures |chunks| <= |Flatten(chunks)| <= |chunks| * w
  {
    if chunks != [] {
      FlattenCount(chunks[1..], w);
      assert |Flatten(chunks)| == |chunks[0]| + |Flatten(chunks[1..])|;
      assert |chunks| * w == (|chunks| - 1) * w + w;
    }
  }

  /** `chunks` is one way `get_span(xs, w)` may cut `xs`: non-empty chunks
      of at most `w` elements whose concatenation, in order, is `xs`. */
  predicate SpanOf<T(==)>(chunks: seq<seq<T>>, xs: seq<T>, w: nat)
  {
    Flatten(chunks) == xs && forall i :: 0 <= i < |chunks| ==> 1 <= |chunks[i]| <= w
  }

  /** `get_span(xs, w)` (DuctApe.Common.utils, not part of this model).
      Callers know it only by its contract; the body is one chunker that
      meets it. */
  method GetSpan<T(==)>(xs: seq<T>, w: nat) returns (chunks: seq<seq<T>>)
    requires w >= 1
    ensures SpanOf(chunks, xs, w)
  {
    chunks := [];
    var i := 0;
    while i < |xs|
      invariant 0 <= i <= |xs|
      invariant Flatten(chunks) == xs[..i]
      invariant forall k :: 0 <= k < |chunks| ==> 1 <= |chunks[k]| <= w
    {
      var j := if i + w <= |xs| then i + w else |xs|;
      FlattenSnoc(chunks, xs[i..j]);
      assert xs[..i] + xs[i..j] == xs[..j];
      chunks := chunks + [xs[i..j]];
      i := j;
    }
    assert xs[..i] == xs;
  }

  /** `xs.index(x)`: the position of the first occurrence of `x`. */
  function IndexOf<T(==)>(xs: seq<T>, x: T): (i: nat)
    requires x in xs
    ensures i < |xs| && xs[i] == x && x !in xs[..i]
  {
    if xs[0] == x then 0
    else
      var i := IndexOf(xs[1..], x);
      assert xs[..i + 1] == [xs[0]] + xs[1..][..i];
      i + 1
  }

  /** The first occurrence of every element, in order. */
  function Dedup<T(==)>(xs: seq<T>): seq<T>
  {
    if xs == [] then []
    else
      var p := Dedup(xs[..|xs| - 1]);
      if xs[|xs| - 1] in xs[..|xs| - 1] then p else p + [xs[|xs| - 1]]
  }

  /** One more position: `xs[m]` is kept exactly when it is the element's
      first occurrence. */
  lemma DedupStep<T>(xs: seq<T>, m: nat)
    requires m < |xs|
    ensures Dedup(xs[..m + 1]) == if FirstAt(xs, m) then Dedup(xs[..m]) + [xs[m]] else Dedup(xs[..m])
  {
    assert xs[..m + 1][..m] == xs[..m];
  }

  /** Dropping repeated elements keeps exactly the same elements and leaves
      a list without repeats unchanged. */
  lemma {:induction false} DedupSpec<T>(xs: seq<T>)
    ensures SetOf(Dedup(xs)) == SetOf(xs)
    ensures Distinct(Dedup(xs))
    ensures Distinct(xs) ==> Dedup(xs) == xs
  {
    if xs != [] {
      var init, x := xs[..|xs| - 1], xs[|xs| - 1];
      DedupSpec(init);
      var p := Dedup(init);
      assert xs == init + [x];
      assert SetOf(xs) == SetOf(init) + {x};
      if x in init {
        assert Dedup(xs) == p;
      } else {
        assert Dedup(xs) == p + [x];
        assert x !in p;
        assert SetOf(p + [x]) == SetOf(p) + {x};
        forall i, j | 0 <= i < j < |p + [x]| ensures (p + [x])[i] != (p + [x])[j] {
          if j == |p| {
            assert (p + [x])[i] == p[i] && p[i] in p;
          } else {
            assert (p + [x])[i] == p[i] && (p + [x])[j] == p[j];
          }
        }
      }
      if Distinct(xs) {
        assert Distinct(init);
        assert x !in init;
      }
    }
  }

  /** The first occurrences of the elements of each chunk, chunk by chunk. */
  function DedupEach<T(==)>(chunks: seq<seq<T>>): seq<T>
  {
    if chunks == [] then [] else Dedup(chunks[0]) + DedupEach(chunks[1..])
  }

  lemma {:induction false} DedupEachSnoc<T>(chunks: seq<seq<T>>, c: seq<T>)
    ensures DedupEach(chunks + [c]) == DedupEach(chunks) + Dedup(c)
  {
    if chunks == [] {
      assert [c][1..] == [];
    } else {
      assert (chunks + [c])[1..] == chunks[1..] + [c];
      DedupEachSnoc(chunks[1..], c);
    }
  }

  /** When no element repeats across the whole list, deduplicating chunk by
      chunk changes nothing. */
  lemma {:induction false} DedupEachDistinct<T>(chunks: seq<seq<T>>)
    requires Distinct(Flatten(chunks))
    ensures DedupEach(chunks) == Flatten(chunks)
  {
    if chunks != [] {
      var f := Flatten(chunks);
      assert f == chunks[0] + Flatten(chunks[1..]);
      assert Distinct(chunks[0]) by {
        forall i, j | 0 <= i < j < |chunks[0]| ensures chunks[0][i] != chunks[0][j] {
          assert f[i] == chunks[0][i] && f[j] == chunks[0][j];
        }
      }
      assert Distinct(Flatten(chunks[1..])) by {
        var r := Flatten(chunks[1..]);
        forall i, j | 0 <= i < j < |r| ensures r[i] != r[j] {
          assert f[|chunks[0]| + i] == r[i] && f[|chunks[0]| + j] == r[j];
        }
      }
      DedupSpec(chunks[0]);
      DedupEachDistinct(chunks[1..]);
    }
  }

  // ---------------------------------------------------------------------
  // The slots a chunk leaves behind

  /** Position `j` of a chunk is its element's first occurrence, so
      `piece.index(piece[j]) == j`. */
  predicate FirstAt<T(==)>(piece: seq<T>, j: int)
  {
    0 <= j < |piece| && piece[j] !in piece[..j]
  }

  /** The same element always makes the same call. */
  predicate CallsFit<T(==)>(piece: seq<T>, calls: seq<Option<Call>>)
  {
    |calls| == |piece| &&
    forall i, j :: 0 <= i < |piece| && 0 <= j < |piece| && piece[i] == piece[j] ==> calls[i] == calls[j]
  }

  /** Handler `j`'s slots once a chunk was dispatched from clean handlers:
      the handler serves the element whose first occurrence is at `j`, when
      that element makes a call; every other handler stays clean. */
  function Expected<T(==)>(piece: seq<T>, calls: seq<Option<Call>>, remote: Remote, j: int): Slot
  {
    if FirstAt(piece, j) && j < |calls| && calls[j].Some? then
      Slot(Some(calls[j].value.id), Fetch(true, remote, calls[j].value.ep, calls[j].value.id, Retries))
    else Slot(None, None)
  }

  /** The slots of the first `n` handlers after a chunk. */
  function ExpectedSlots<T(==)>(piece: seq<T>, calls: seq<Option<Call>>, remote: Remote, n: nat): (r: seq<Slot>)
    ensures |r| == n
  {
    if n == 0 then [] else ExpectedSlots(piece, calls, remote, n - 1) + [Expected(piece, calls, remote, n - 1)]
  }

  /** Position `j` of the slots is handler `j`'s. */
  lemma {:induction false} ExpectedSlotsAt<T>(piece: seq<T>, calls: seq<Option<Call>>, remote: Remote, n: nat)
    ensures forall j :: 0 <= j < n ==> ExpectedSlots(piece, calls, remote, n)[j] == Expected(piece, calls, remote, j)
  {
    if n > 0 {
      ExpectedSlotsAt(piece, calls, remote, n - 1);
    }
  }

  /** Dispatching position `i` of the chunk: the slots of the handler
      `piece.index(piece[i])` become the call's, all others stay as they are. */
  lemma ExpectedStep<T>(piece: seq<T>, calls: seq<Option<Call>>, remote: Remote, i: nat, j: int)
    requires CallsFit(piece, calls) && i < |piece|
    ensures var t := IndexOf(piece, piece[i]);
            Expected(piece[..i + 1], calls[..i + 1], remote, j) ==
              if j == t && calls[i].Some? then
                Slot(Some(calls[i].value.id), Fetch(true, remote, calls[i].value.ep, calls[i].value.id, Retries))
              else Expected(piece[..i], calls[..i], remote, j)
  {
    var t := IndexOf(piece, piece[i]);
    var p, p' := piece[..i], piece[..i + 1];
    if 0 <= j < i {
      assert p'[..j] == p[..j] == piece[..j];
      assert p'[j] == p[j] == piece[j];
      if j == t && calls[i].Some? {
        assert calls[j] == calls[i];
      }
    } else if j == i {
      assert p'[..i] == p;
      if t < i {
        assert piece[i] in p by { assert p[t] == piece[i]; }
      } else {
        assert t == i;
      }
    }
  }

  /** Before position `i` is dispatched, the handler it goes to is either
      clean or already holds this very call's outcome. */
  lemma ExpectedBefore<T>(piece: seq<T>, calls: seq<Option<Call>>, remote: Remote, i: nat)
    requires CallsFit(piece, calls) && i < |piece| && calls[i].Some?
    ensures var s := Expected(piece[..i], calls[..i], remote, IndexOf(piece, piece[i]));
            s.result == None ||
            s.result == Fetch(true, remote, calls[i].value.ep, calls[i].value.id, Retries)
  {
    var t := IndexOf(piece, piece[i]);
    if t < i {
      assert piece[..i][t] == piece[t];
      assert calls[..i][t] == calls[t] == calls[i];
    }
  }

  /** A handler's slots. */
  function SlotOf(h: KeggAPI): Slot
    reads h
  {
    Slot(h.input, h.result)
  }

  /** The slots of all handlers, in pool order. */
  function Slots(hs: seq<KeggAPI>): (r: seq<Slot>)
    reads hs
    ensures |r| == |hs| && forall j :: 0 <= j < |hs| ==> r[j] == SlotOf(hs[j])
  {
    if hs == [] then [] else Slots(hs[..|hs| - 1]) + [SlotOf(hs[|hs| - 1])]
  }

  // ---------------------------------------------------------------------
  // Progress

  /** One chunk's progress step: `_substatus += w`, capped at `m`. */
  function Bump(s: int, w: int, m: int): int
  {
    if s + w > m then m else s + w
  }

  /** The progress counter after `n` chunks. */
  function Progress(s: int, n: nat, w: int, m: int): int
  {
    if n == 0 then s else Bump(Progress(s, n - 1, w, m), w, m)
  }

  /** After at least one chunk the counter is `min(s + n * w, m)`; in
      particular it never exceeds `m`. */
  lemma {:induction false} ProgressClosed(s: int, n: nat, w: int, m: int)
    requires n >= 1 && w >= 0
    ensures Progress(s, n, w, m) == if s + n * w > m then m else s + n * w
    ensures Progress(s, n, w, m) <= m
  {
    if n > 1 {
      ProgressClosed(s, n - 1, w, m);
      assert s + n * w == s + (n - 1) * w + w;
    }
  }

  // ---------------------------------------------------------------------
  // Connecting the pool

  /** The tries of session `i` of the pool. */
  function Dial(dial: (nat, nat) -> bool, i: nat): nat -> bool
  {
    (k: nat) => dial(i, k)
  }

  /** Session `i` connects within the retry budget. */
  predicate SessionUp(dial: (nat, nat) -> bool, i: nat)
  {
    FirstSuccess(Dial(dial, i), 0, Budget(Retries)).Some?
  }

  /** Which sessions fail to connect. */
  function SessionDown(dial: (nat, nat) -> bool): nat -> bool
  {
    (i: nat) => !SessionUp(dial, i)
  }

  /** `range(n)` has `max(n, 0)` elements. */
  function Width(n: int): nat
  {
    if n < 0 then 0 else n
  }

  /** How many sessions `connect` opens before the first failure. */
  function Opened(dial: (nat, nat) -> bool, n: int): nat
  {
    match FirstSuccess(SessionDown(dial), 0, Width(n))
    case None => Width(n)
    case Some(i) => i
  }

  /** The pool connects all `n` sessions exactly when none fails, and
      otherwise the opened ones are those before the first failing one. */
  lemma OpenedSpec(dial: (nat, nat) -> bool, n: int)
    ensures FirstSuccess(SessionDown(dial), 0, Width(n)).None? <==> forall i :: 0 <= i < Width(n) ==> SessionUp(dial, i)
    ensures Opened(dial, n) <= Width(n)
    ensures forall i :: 0 <= i < Opened(dial, n) ==> SessionUp(dial, i)
    ensures Opened(dial, n) < Width(n) ==> !SessionUp(dial, Opened(dial, n))
  {
    var down := SessionDown(dial);
    FirstSuccessSpec(down, 0, Width(n));
    if FirstSuccess(down, 0, Width(n)).None? {
      forall i | 0 <= i < Width(n) ensures SessionUp(dial, i) {
        assert !down(i);
      }
    } else {
      var k := FirstSuccess(down, 0, Width(n)).value;
      assert down(k);
      forall i | 0 <= i < k ensures SessionUp(dial, i) {
        assert !down(i);
      }
    }
    if forall i :: 0 <= i < Width(n) ==> SessionUp(dial, i) {
      forall k | 0 <= k < Width(n) ensures !down(k) {
        assert SessionUp(dial, k);
      }
    }
  }

  /** The message every `run` reports when the pool cannot connect. */
  const ConnectFailure: string := "Could not connect to KEGG"

  class BaseKegg {
    const numThreads: int
    var handlers: seq<KeggAPI>
    /** The handlers as a set: the objects the pool's methods change. */
    ghost var pool: set<KeggAPI>
    /** CommonThread's `_substatus` and `_maxsubstatus`. */
    var substatus: int
    var maxsubstatus: int
    /** The message of `sendFailure`, once a run failed. */
    var failure: Option<string>

    /** `BaseKegg(threads)`: an empty pool. */
    constructor (threads: int)
      ensures numThreads == threads && handlers == [] && pool == {}
      ensures substatus == 0 && maxsubstatus == 0 && failure == None
    {
      numThreads := threads;
      handlers := [];
      pool := {};
      substatus := 0;
      maxsubstatus := 0;
      failure := None;
    }

    /** The pool's handlers are distinct objects, and only handlers that
        connected were ever added. */
    ghost predicate Valid()
      reads this, pool
    {
      Distinct(handlers) &&
      forall i :: 0 <= i < |handlers| ==> handlers[i] in pool && handlers[i].connected
    }

    /** A connected pool, ready for chunks of `numThreads` ids. */
    ghost predicate Ready()
      reads this, pool
    {
      Valid() && 1 <= numThreads <= |handlers|
    }

    /** `connect`: opens `numThreads` sessions one after another, stopping at
        the first that cannot connect. `dial(i, k)` tells whether try `k` of
        session `i` works. */
    method Connect(dial: (nat, nat) -> bool) returns (ok: bool)
      requires Valid()
      modifies this`handlers, this`pool
      ensures Valid()
      ensures ok <==> forall i :: 0 <= i < Width(numThreads) ==> SessionUp(dial, i)
      ensures |handlers| == |old(handlers)| + Opened(dial, numThreads)
      ensures ok ==> |handlers| == |old(handlers)| + Width(numThreads)
      ensures forall j :: 0 <= j < |old(handlers)| ==> handlers[j] == old(handlers)[j]
      ensures forall o :: o in pool ==> o in old(pool) || fresh(o)
      ensures forall j :: |old(handlers)| <= j < |handlers| ==>
                fresh(handlers[j]) && handlers[j].input == None && handlers[j].result == None
    {
      ghost var n := Width(numThreads);
      ghost var down := SessionDown(dial);
      OpenedSpec(dial, numThreads);
      var i := 0;
      while i < numThreads
        invariant 0 <= i <= n
        invariant FirstSuccess(down, 0, n) == FirstSuccess(down, i, n)
        invariant |handlers| == |old(handlers)| + i
        invariant forall j :: 0 <= j < |old(handlers)| ==> handlers[j] == old(handlers)[j]
        invariant forall j :: |old(handlers)| <= j < |handlers| ==>
                    fresh(handlers[j]) && handlers[j].input == None && handlers[j].result == None
        invariant forall o :: o in pool ==> o in old(pool) || fresh(o)
        invariant Valid()
      {
        var obj := new KeggAPI();
        var up, _ := obj.Connect(Dial(dial, i), Retries);
        if !up {
          assert down(i);
          return false;
        }
        assert !down(i);
        handlers := handlers + [obj];
        pool := pool + {obj};
        i := i + 1;
      }
      return true;
    }

    /** The progress counter after a phase of `rounds` chunks over `n`
        ids, started from `s`. */
    predicate Progressed(s: int, n: nat, rounds: nat)
      reads this
    {
      rounds <= n <= rounds * numThreads && substatus == Progress(s, rounds, numThreads, maxsubstatus)
    }

    /** `cleanHandlers`: empties the slots of every handler. */
    method CleanHandlers()
      requires Valid()
      modifies pool
      ensures Valid() && handlers == old(handlers)
      ensures forall j :: 0 <= j < |handlers| ==> handlers[j].input == None && handlers[j].result == None
    {
      for i := 0 to |handlers|
        invariant Valid()
        invariant forall j :: 0 <= j < i ==> handlers[j].input == None && handlers[j].result == None
      {
        handlers[i].Clean();
      }
    }

    /** The progress step of a chunk. */
    method Advance()
      modifies this`substatus
      ensures substatus == Bump(old(substatus), numThreads, maxsubstatus)
    {
      substatus := substatus + numThreads;
      if substatus > maxsubstatus {
        substatus := maxsubstatus;
      }
    }

    /** `resetSubStatus` (CommonThread, not part of this model): the
        counter starts again from 0. */
    method ResetSubStatus()
      modifies this`substatus
      ensures substatus == 0
    {
      substatus := 0;
    }

    /** `sendFailure`: the run records why it stopped. */
    method SendFailure(msg: string)
      modifies this`failure
      ensures failure == Some(msg)
    {
      failure := Some(msg);
    }

    /** Sends every position of the chunk that makes a call to the handler
        `piece.index(piece[i])`, one after another. */
    method Dispatch<T(==)>(piece: seq<T>, calls: seq<Option<Call>>, remote: Remote)
      requires Valid() && |piece| <= |handlers| && CallsFit(piece, calls)
      requires forall j :: 0 <= j < |handlers| ==> handlers[j].input == None && handlers[j].result == None
      modifies pool
      ensures Valid() && handlers == old(handlers)
      ensures forall j :: 0 <= j < |handlers| ==> SlotOf(handlers[j]) == Expected(piece, calls, remote, j)
    {
      var i := 0;
      while i < |piece|
        invariant 0 <= i <= |piece|
        invariant Valid()
        invariant forall j :: 0 <= j < |handlers| ==> SlotOf(handlers[j]) == Expected(piece[..i], calls[..i], remote, j)
      {
        forall j | 0 <= j < |handlers| {
          ExpectedStep(piece, calls, remote, i, j);
        }
        if calls[i].Some? {
          var t := IndexOf(piece, piece[i]);
          ExpectedBefore(piece, calls, remote, i);
          var h := handlers[t];
          var _, _ := h.Request(calls[i].value.ep, calls[i].value.id, remote, Retries);
        }
        i := i + 1;
      }
      assert piece[..i] == piece && calls[..i] == calls;
    }

    /** One chunk of a phase: clean the handlers, bump the progress, dispatch.
        Afterwards every handler's slots are those `Expected` describes. */
    method RunChunk<T(==)>(piece: seq<T>, calls: seq<Option<Call>>, remote: Remote)
      requires Ready() && |piece| <= numThreads && CallsFit(piece, calls)
      modifies this`substatus, pool
      ensures Ready() && handlers == old(handlers)
      ensures substatus == Bump(old(substatus), numThreads, maxsubstatus)
      ensures Slots(handlers) == ExpectedSlots(piece, calls, remote, |handlers|)
    {
      CleanHandlers();
      Advance();
      Dispatch(piece, calls, remote);
      ExpectedSlotsAt(piece, calls, remote, |handlers|);
    }
  }

}
