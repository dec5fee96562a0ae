/**
 * KeggColor: the colors to paint on one pathway map, as two dictionaries
 * (reaction id to color, compound id to color). A dictionary is modelled by
 * its items in iteration order, which is the order `getAll` reports.
 */
module Coloring {

  import opened KeggApi

  /** A color as the KEGG service takes it, e.g. `#ff0000` or `red`. */
  type Color = string

  /** A dictionary's (key, value) items, in iteration order. */
  type Items = seq<(Id, Color)>

  /** A Python dictionary never holds a key twice. */
  predicate DistinctKeys(d: Items)
  {
    forall i, j :: 0 <= i < j < |d| ==> d[i].0 != d[j].0
  }

  /** A dictionary: its items, each key once. */
  type Dict = d: Items | DistinctKeys(d) witness []

  /** `[x for x in d]`: the keys, in iteration order. */
  function KeysOf(d: Items): seq<Id>
  {
    seq(|d|, i requires 0 <= i < |d| => d[i].0)
  }

  /** `[d[x] for x in d]`: the values, in the same order. */
  function ValuesOf(d: Items): seq<Color>
  {
    seq(|d|, i requires 0 <= i < |d| => d[i].1)
  }

  /** `d[k]` for a key of the dictionary: the value of its item. */
  function Lookup(d: Items, k: Id): Color
    requires exists i :: 0 <= i < |d| && d[i].0 == k
  {
    if d[0].0 == k then d[0].1 else Lookup(d[1..], k)
  }

  /** Pairs up two lists of equal length. */
  function Zip(ks: seq<Id>, vs: seq<Color>): (d: Items)
    requires |ks| == |vs|
    ensures |d| == |ks| && forall i :: 0 <= i < |ks| ==> d[i] == (ks[i], vs[i])
  {
    if ks == [] then [] else [(ks[0], vs[0])] + Zip(ks[1..], vs[1..])
  }

  class KeggColor {
    var path: Id
    var reactions: Dict
    var compounds: Dict

    /** `KeggColor(path, reactions, compounds)`. */
    constructor (p: Id, rs: Dict, cs: Dict)
      ensures path == p && reactions == rs && compounds == cs
    {
      path := p;
      reactions := rs;
      compounds := cs;
    }

    /** `setReactions`. */
    method SetReactions(rs: Dict)
      modifies this`reactions
      ensures reactions == rs
    {
      reactions := rs;
    }

    /** `setCompounds`. */
    method SetCompounds(cs: Dict)
      modifies this`compounds
      ensures compounds == cs
    {
      compounds := cs;
    }

    /** `getAll`: the reaction ids then the compound ids, and beside them
        their colors, position by position. */
    function GetAll(): (r: (seq<Id>, seq<Color>))
      reads this
      ensures |r.0| == |r.1| == |reactions| + |compounds|
      ensures forall i :: 0 <= i < |reactions| ==> r.0[i] == reactions[i].0 && r.1[i] == reactions[i].1
      ensures forall i :: 0 <= i < |compounds| ==>
                r.0[|reactions| + i] == compounds[i].0 && r.1[|reactions| + i] == compounds[i].1
    {
      (KeysOf(reactions) + KeysOf(compounds), ValuesOf(reactions) + ValuesOf(compounds))
    }
  }

  /** Pairing `getAll`'s two lists back up gives the items of both
      dictionaries, reactions first. */
  lemma GetAllZips(c: KeggColor)
    ensures Zip(c.GetAll().0, c.GetAll().1) == c.reactions + c.compounds
  {
    var (objs, colors) := c.GetAll();
    var z := Zip(objs, colors);
    assert |z| == |c.reactions + c.compounds|;
    forall i | 0 <= i < |z| ensures z[i] == (c.reactions + c.compounds)[i] {
      if i >= |c.reactions| {
        assert objs[|c.reactions| + (i - |c.reactions|)] == c.compounds[i - |c.reactions|].0;
      }
    }
  }

  /** The first occurrence of a key decides its lookup. */
  lemma {:induction false} LookupAt(d: Items, i: nat)
    requires i < |d| && DistinctKeys(d)
    ensures Lookup(d, d[i].0) == d[i].1
  {
    if i > 0 {
      assert d[0].0 != d[i].0;
      assert d[1..][i - 1] == d[i];
      LookupAt(d[1..], i - 1);
    }
  }

  /** `colors[i]` is the color its dictionary assigns to `objs[i]`. */
  lemma GetAllColors(c: KeggColor)
    ensures forall i :: 0 <= i < |c.reactions| ==> c.GetAll().1[i] == Lookup(c.reactions, c.GetAll().0[i])
    ensures forall i :: |c.reactions| <= i < |c.GetAll().0| ==>
              c.GetAll().1[i] == Lookup(c.compounds, c.GetAll().0[i])
  {
    var (objs, colors) := c.GetAll();
    forall i | 0 <= i < |c.reactions| ensures colors[i] == Lookup(c.reactions, objs[i]) {
      LookupAt(c.reactions, i);
    }
    forall i | |c.reactions| <= i < |objs| ensures colors[i] == Lookup(c.compounds, objs[i]) {
      var j := i - |c.reactions|;
      assert objs[|c.reactions| + j] == c.compounds[j].0;
      LookupAt(c.compounds, j);
    }
  }

}
