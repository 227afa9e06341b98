/** The `Oks` iterator adapter of `src/oks.rs`: it hands out every item of its
    source iterator tagged as a success. */
module OksAdapter {
  import opened Wrappers
  import MmErrors

  /** A source iterator over a finite sequence: its items and a cursor, as
      `vec.iter()` or `vec.into_iter()` would be. */
  class SeqIter<T> {
    const items: seq<T>
    var pos: nat

    ghost predicate Valid()
      reads this
    {
      pos <= |items|
    }

    /** The items `next` has yet to return, in order. */
    ghost function Remaining(): seq<T>
      reads this
      requires Valid()
    {
      items[pos..]
    }

    constructor (items: seq<T>)
      ensures Valid() && this.items == items && pos == 0
    {
      this.items := items;
      pos := 0;
    }

    /** `Iterator::next`: the item under the cursor, advancing past it. */
    method Next() returns (x: Option<T>)
      requires Valid()
      modifies this
      ensures Valid()
      ensures x.Some? <==> old(Remaining()) != []
      ensures x.Some? ==> x.value == old(Remaining())[0] && pos == old(pos) + 1
      ensures x.None? ==> pos == old(pos)
    {
      if pos < |items| {
        x := Some(items[pos]);
        pos := pos + 1;
      } else {
        x := None;
      }
    }

    /** `Clone`: an independent iterator at the same position. */
    method Clone() returns (c: SeqIter<T>)
      requires Valid()
      ensures fresh(c) && c.Valid() && c.items == items && c.pos == pos
    {
      c := new SeqIter(items);
      c.pos := pos;
    }
  }

  /** Every item tagged `Ok`, in order. */
  ghost function AllOk<T>(s: seq<T>): (r: seq<Result<T, MmErrors.Error>>)
    ensures |r| == |s|
    decreases |s|
  {
    if s == [] then [] else [Ok(s[0])] + AllOk(s[1..])
  }

  /** Item `i` of the adapter's output is `Ok` of item `i` of its source. */
  lemma {:induction false} AllOkAt<T>(s: seq<T>, i: nat)
    requires i < |s|
    ensures AllOk(s)[i] == Ok(s[i])
    decreases |s|
  {
    if i > 0 {
      AllOkAt(s[1..], i - 1);
    }
  }

  /** `Oks<T>`: owns its source iterator and nothing else. */
  class Oks<T> {
    const source: SeqIter<T>

    ghost predicate Valid()
      reads this, source
    {
      source.Valid()
    }

    /** The items this adapter has yet to yield. */
    ghost function Remaining(): seq<Result<T, MmErrors.Error>>
      reads this, source
      requires Valid()
    {
      AllOk(source.Remaining())
    }

    /** `OksExtension::oks`: takes the source as it is, without advancing it. */
    constructor (source: SeqIter<T>)
      requires source.Valid()
      ensures this.source == source && Valid()
      ensures source.pos == old(source.pos)
      ensures Remaining() == AllOk(source.Remaining())
    {
      this.source := source;
    }

    /** `Iterator::next`: the source's next item tagged `Ok`, or `None` once the
        source is exhausted; the source moves on by exactly one item. */
    method Next() returns (r: Option<Result<T, MmErrors.Error>>)
      requires Valid()
      modifies source
      ensures Valid()
      ensures r.Some? <==> old(source.Remaining()) != []
      ensures r.Some? ==> r.value.Ok? && r.value.value == old(source.Remaining())[0]
      ensures r.Some? ==> source.pos == old(source.pos) + 1
      ensures r.None? ==> source.pos == old(source.pos)
      ensures r.Some? ==> [r.value] + Remaining() == old(Remaining())
    {
      var x := source.Next();
      match x {
        case Some(v) =>
          r := Some(Ok(v));
          assert old(source.Remaining()) == [v] + source.Remaining();
        case None =>
          r := None;
      }
    }

    /** `Clone`: an adapter over a clone of the source, at the same position. */
    method Clone() returns (c: Oks<T>)
      requires Valid()
      ensures fresh(c) && fresh(c.source) && c.Valid()
      ensures c.source.items == source.items && c.source.pos == source.pos
      ensures c.Remaining() == Remaining()
    {
      var s := source.Clone();
      c := new Oks(s);
    }
  }

  /** Pulls every remaining item out of `o`, as a `for` loop over it does. */
  method Drain<T>(o: Oks<T>) returns (items: seq<Result<T, MmErrors.Error>>)
    requires o.Valid()
    modifies o.source
    ensures o.Valid() && o.source.Remaining() == []
    ensures items == old(o.Remaining())
  {
    items := [];
    ghost var all := o.Remaining();
    while true
      invariant o.Valid()
      invariant items + o.Remaining() == all
      decreases |o.source.items| - o.source.pos
    {
      ghost var before := o.Remaining();
      var r := o.Next();
      if r.None? {
        break;
      }
      assert before == [r.value] + o.Remaining();
      assert items + before == (items + [r.value]) + o.Remaining();
      items := items + [r.value];
    }
  }

  /** `source.oks().enumerate()` walked to the end: item `i` is `(i, Ok(source[i]))`,
      one per source item, never an `Err`. */
  method EnumerateOks<T>(source: seq<T>) returns (pairs: seq<(nat, Result<T, MmErrors.Error>)>)
    ensures |pairs| == |source|
    ensures forall i :: 0 <= i < |pairs| ==> pairs[i] == (i, Ok(source[i]))
  {
    var it := new SeqIter(source);
    var o := new Oks(it);
    pairs := [];
    while true
      invariant o.Valid()
      invariant o.source.items == source && o.source.pos == |pairs|
      invariant forall i :: 0 <= i < |pairs| ==> pairs[i] == (i, Ok(source[i]))
      decreases |source| - o.source.pos
    {
      var r := o.Next();
      if r.None? {
        break;
      }
      pairs := pairs + [(|pairs|, r.value)];
    }
  }

  /** The crate's test: over `[0, 1, 2, 3]` every item is `Ok` of its own index. */
  method OksTest() returns (pairs: seq<(nat, Result<int, MmErrors.Error>)>)
    ensures |pairs| == 4
    ensures forall i :: 0 <= i < |pairs| ==> pairs[i].1.Ok? && pairs[i].1.value == pairs[i].0
  {
    pairs := EnumerateOks([0, 1, 2, 3]);
  }

  /** A clone taken after `k` items replays exactly what the original goes on to
      yield, however far the original has been driven meanwhile. */
  method CloneReplays<T>(source: seq<T>, k: nat) returns (fromOriginal: seq<Result<T, MmErrors.Error>>, fromClone: seq<Result<T, MmErrors.Error>>)
    requires k <= |source|
    ensures fromOriginal == fromClone
    ensures |fromClone| == |source| - k
    ensures forall i :: 0 <= i < |fromClone| ==> fromClone[i] == Ok(source[k + i])
  {
    var it := new SeqIter(source);
    var o := new Oks(it);
    var n := 0;
    while n < k
      invariant o.Valid()
      invariant o.source.items == source && o.source.pos == n <= k
    {
      var _ := o.Next();
      n := n + 1;
    }
    var c := o.Clone();
    assert c.Remaining() == AllOk(source[k..]);
    fromOriginal := Drain(o);
    fromClone := Drain(c);
    forall i | 0 <= i < |fromClone|
      ensures fromClone[i] == Ok(source[k + i])
    {
      AllOkAt(source[k..], i);
    }
  }
}
