/**
 * The part of the document the adapter touches: a root element whose children are the
 * per-instance player containers, each holding video elements.
 *
 * A container is kept as a value tagged with the id the document gave it when it was
 * created; its `style.display` is kept only as the boolean `visible`.
 */
module Dom {

  datatype VideoElement = VideoElement(id: nat)

  datatype PlayerContainer = PlayerContainer(id: nat, visible: bool, videos: seq<VideoElement>)

  /** Some child of the root carries this id. */
  predicate HasChild(cs: seq<PlayerContainer>, id: nat)
  {
    exists i :: 0 <= i < |cs| && cs[i].id == id
  }

  /** No two children of the root carry the same id. */
  predicate DistinctIds(cs: seq<PlayerContainer>)
  {
    forall i, j :: 0 <= i < j < |cs| ==> cs[i].id != cs[j].id
  }

  /** Every child, and every video in it, was created before the document handed out id `bound`. */
  predicate IdsBelow(cs: seq<PlayerContainer>, bound: nat)
  {
    && (forall i :: 0 <= i < |cs| ==> cs[i].id < bound)
    && (forall i, v :: 0 <= i < |cs| && v in cs[i].videos ==> v.id < bound)
  }

  /** Number of video elements below the root. */
  function VideoCount(cs: seq<PlayerContainer>): nat
  {
    if cs == [] then 0 else |cs[0].videos| + VideoCount(cs[1..])
  }

  /** Number of children whose display is not "none". */
  function VisibleCount(cs: seq<PlayerContainer>): nat
  {
    if cs == [] then 0 else (if cs[0].visible then 1 else 0) + VisibleCount(cs[1..])
  }

  /** The children after `style.display = "none"` on the container with id `id`. */
  function Hide(cs: seq<PlayerContainer>, id: nat): (r: seq<PlayerContainer>)
    ensures |r| == |cs|
    ensures forall i :: 0 <= i < |cs| && cs[i].id == id ==> r[i] == cs[i].(visible := false)
    ensures forall i :: 0 <= i < |cs| && cs[i].id != id ==> r[i] == cs[i]
  {
    if cs == [] then []
    else
      var head := if cs[0].id == id then cs[0].(visible := false) else cs[0];
      [head] + Hide(cs[1..], id)
  }

  /** The children after `removeChild` of the container with id `id`. */
  function Remove(cs: seq<PlayerContainer>, id: nat): (r: seq<PlayerContainer>)
    ensures |r| <= |cs|
    ensures forall i :: 0 <= i < |r| ==> r[i].id != id
  {
    if cs == [] then []
    else if cs[0].id == id then Remove(cs[1..], id)
    else [cs[0]] + Remove(cs[1..], id)
  }

  /** The children after the first still have distinct ids, none of them the first's. */
  lemma DistinctIdsTail(cs: seq<PlayerContainer>)
    requires DistinctIds(cs) && cs != []
    ensures DistinctIds(cs[1..]) && !HasChild(cs[1..], cs[0].id)
  {
    var tail := cs[1..];
    forall i, j | 0 <= i < j < |tail| ensures tail[i].id != tail[j].id {
      assert tail[i] == cs[i + 1] && tail[j] == cs[j + 1];
    }
    forall i | 0 <= i < |tail| ensures tail[i].id != cs[0].id {
      assert tail[i] == cs[i + 1];
    }
  }

  /** A container is left after removal exactly when it was a child and has another id. */
  lemma {:induction false} RemoveMembers(cs: seq<PlayerContainer>, id: nat)
    ensures forall c :: c in Remove(cs, id) <==> c in cs && c.id != id
  {
    if cs != [] {
      RemoveMembers(cs[1..], id);
      assert cs == [cs[0]] + cs[1..];
    }
  }

  /** Removing an id that no child carries leaves the children as they were. */
  lemma {:induction false} RemoveAbsent(cs: seq<PlayerContainer>, id: nat)
    requires !HasChild(cs, id)
    ensures Remove(cs, id) == cs
  {
    if cs != [] {
      assert cs[0].id != id;
      assert !HasChild(cs[1..], id) by {
        forall i | 0 <= i < |cs[1..]| ensures cs[1..][i].id != id {
          assert cs[1..][i] == cs[i + 1];
        }
      }
      RemoveAbsent(cs[1..], id);
      assert cs == [cs[0]] + cs[1..];
    }
  }

  /** Removal distributes over the concatenation of two child lists. */
  lemma {:induction false} RemoveConcat(xs: seq<PlayerContainer>, ys: seq<PlayerContainer>, id: nat)
    ensures Remove(xs + ys, id) == Remove(xs, id) + Remove(ys, id)
  {
    if xs != [] {
      assert (xs + ys)[1..] == xs[1..] + ys;
      RemoveConcat(xs[1..], ys, id);
    } else {
      assert xs + ys == ys;
    }
  }

  /**
   * With distinct ids, removing the container at index `k` removes exactly that child:
   * every other child stays, in its order.
   */
  lemma {:induction false} RemoveExactlyOne(cs: seq<PlayerContainer>, k: nat)
    requires DistinctIds(cs)
    requires k < |cs|
    ensures Remove(cs, cs[k].id) == cs[..k] + cs[k + 1..]
  {
    var id := cs[k].id;
    var tail := cs[1..];
    DistinctIdsTail(cs);
    if k == 0 {
      RemoveAbsent(tail, id);
    } else {
      assert tail[k - 1] == cs[k];
      RemoveExactlyOne(tail, k - 1);
      assert cs[0].id != id by {
        assert cs[0].id != cs[k].id;
      }
      calc {
        Remove(cs, id);
        [cs[0]] + Remove(tail, id);
        [cs[0]] + (tail[..k - 1] + tail[k..]);
        { assert cs[..k] == [cs[0]] + tail[..k - 1]; assert cs[k + 1..] == tail[k..]; }
        cs[..k] + cs[k + 1..];
      }
    }
  }

  /** Removal keeps the ids of the remaining children distinct. */
  lemma {:induction false} RemoveKeepsDistinct(cs: seq<PlayerContainer>, id: nat)
    requires DistinctIds(cs)
    ensures DistinctIds(Remove(cs, id))
  {
    if cs != [] {
      var tail := cs[1..];
      DistinctIdsTail(cs);
      RemoveKeepsDistinct(tail, id);
      if cs[0].id != id {
        var rest := Remove(tail, id);
        RemoveMembers(tail, id);
        forall j | 0 <= j < |rest| ensures rest[j].id != cs[0].id {
          assert rest[j] in rest;
          var m :| 0 <= m < |tail| && tail[m] == rest[j];
          assert tail[m] == cs[m + 1];
        }
        var r := [cs[0]] + rest;
        forall i, j | 0 <= i < j < |r| ensures r[i].id != r[j].id {
          if i == 0 {
            assert r[j] == rest[j - 1];
          } else {
            assert r[i] == rest[i - 1] && r[j] == rest[j - 1];
          }
        }
      }
    }
  }

  /** Hiding keeps every id where it was, so distinct ids stay distinct. */
  lemma HideKeepsDistinct(cs: seq<PlayerContainer>, id: nat)
    requires DistinctIds(cs)
    ensures DistinctIds(Hide(cs, id))
  {
    var h := Hide(cs, id);
    forall i, j | 0 <= i < j < |h| ensures h[i].id != h[j].id {
      assert h[i].id == cs[i].id && h[j].id == cs[j].id;
    }
  }

  /** Hiding an id that no child carries leaves the children as they were. */
  lemma HideAbsent(cs: seq<PlayerContainer>, id: nat)
    requires !HasChild(cs, id)
    ensures Hide(cs, id) == cs
  {
  }

  lemma {:induction false} VideoCountConcat(xs: seq<PlayerContainer>, ys: seq<PlayerContainer>)
    ensures VideoCount(xs + ys) == VideoCount(xs) + VideoCount(ys)
  {
    if xs != [] {
      assert (xs + ys)[1..] == xs[1..] + ys;
      VideoCountConcat(xs[1..], ys);
    } else {
      assert xs + ys == ys;
    }
  }

  lemma {:induction false} VisibleCountConcat(xs: seq<PlayerContainer>, ys: seq<PlayerContainer>)
    ensures VisibleCount(xs + ys) == VisibleCount(xs) + VisibleCount(ys)
  {
    if xs != [] {
      assert (xs + ys)[1..] == xs[1..] + ys;
      VisibleCountConcat(xs[1..], ys);
    } else {
      assert xs + ys == ys;
    }
  }

  /**
   * Teardown isolation: hiding and then removing the container of one instance leaves
   * every container of every other instance exactly as it was, and that instance's
   * container is gone.
   */
  lemma TeardownIsolation(cs: seq<PlayerContainer>, id: nat)
    ensures forall c :: c in cs && c.id != id ==> c in Hide(cs, id) && c in Remove(Hide(cs, id), id)
    ensures !HasChild(Remove(Hide(cs, id), id), id)
  {
    var h := Hide(cs, id);
    forall c | c in cs && c.id != id ensures c in h {
      var i :| 0 <= i < |cs| && cs[i] == c;
      assert h[i] == c;
    }
    RemoveMembers(h, id);
  }

  /**
   * The double-invoke sequence on a root whose children are `cs`: mount (container `a`),
   * unmount (hide `a`), mount again (container `b`), then the first destroy settles
   * (remove `a`). Before settlement there is one more container and video than after,
   * exactly one of the two new containers is visible, and settlement leaves the newer
   * container untouched.
   */
  lemma StrictModeCollapse(cs: seq<PlayerContainer>, a: nat, b: nat, va: VideoElement, vb: VideoElement)
    requires a != b && !HasChild(cs, a) && !HasChild(cs, b)
    ensures var first := PlayerContainer(a, true, [va]);
            var second := PlayerContainer(b, true, [vb]);
            var during := Hide(cs + [first], a) + [second];
            && during == cs + [first.(visible := false), second]
            && VideoCount(during) == VideoCount(cs) + 2
            && VisibleCount(during) == VisibleCount(cs) + 1
            && Remove(during, a) == cs + [second]
            && VideoCount(Remove(during, a)) == VideoCount(cs) + 1
            && VisibleCount(Remove(during, a)) == VisibleCount(cs) + 1
  {
    var first := PlayerContainer(a, true, [va]);
    var second := PlayerContainer(b, true, [vb]);
    var hidden := first.(visible := false);
    var h := Hide(cs + [first], a);
    assert h == cs + [hidden] by {
      HideAbsent(cs, a);
      assert |h| == |cs| + 1;
      forall i | 0 <= i < |h| ensures h[i] == (cs + [hidden])[i] {
        if i < |cs| {
          assert (cs + [first])[i] == cs[i];
          assert cs[i].id != a;
        }
      }
    }
    var during := h + [second];
    assert during == cs + [hidden, second];
    VideoCountConcat(cs, [hidden, second]);
    VisibleCountConcat(cs, [hidden, second]);
    assert [hidden, second][1..] == [second];
    RemoveConcat(cs, [hidden, second], a);
    RemoveAbsent(cs, a);
    assert Remove([hidden, second], a) == [second];
    VideoCountConcat(cs, [second]);
    VisibleCountConcat(cs, [second]);
  }

  /** The document, as the source of fresh elements: every created element gets a new id. */
  class Document {
    var nextId: nat

    constructor ()
      ensures nextId == 0
    {
      nextId := 0;
    }

    /** `document.createElement`: an id no element created before has. */
    method CreateElement() returns (id: nat)
      modifies this
      ensures id == old(nextId) && nextId == old(nextId) + 1
    {
      id := nextId;
      nextId := nextId + 1;
    }
  }

  /** The root `<div>` the adapter renders; its children are the per-instance containers. */
  class RootElement {
    var children: seq<PlayerContainer>

    ghost predicate Valid()
      reads this
    {
      DistinctIds(children)
    }

    constructor ()
      ensures Valid() && children == []
    {
      children := [];
    }

    /** `appendChild`: a node that is already a child is moved to the end. */
    method AppendChild(c: PlayerContainer)
      requires Valid()
      modifies this
      ensures Valid()
      ensures children == Remove(old(children), c.id) + [c]
    {
      RemoveKeepsDistinct(children, c.id);
      var rest := Remove(children, c.id);
      children := rest + [c];
      forall i, j | 0 <= i < j < |children| ensures children[i].id != children[j].id {
        if j == |rest| {
          assert children[i] == rest[i];
        }
      }
    }

    /** `style.display = "none"` on the child with id `id`. */
    method HideChild(id: nat)
      requires Valid()
      modifies this
      ensures Valid()
      ensures children == Hide(old(children), id)
    {
      HideKeepsDistinct(children, id);
      children := Hide(children, id);
    }

    /**
     * `removeChild`: `found` is false when no child has id `id` (the document would throw
     * a NotFoundError), and then nothing changes.
     */
    method RemoveChild(id: nat) returns (found: bool)
      requires Valid()
      modifies this
      ensures Valid()
      ensures found == HasChild(old(children), id)
      ensures children == Remove(old(children), id)
      ensures !found ==> children == old(children)
    {
      found := exists i :: 0 <= i < |children| && children[i].id == id;
      if !found {
        RemoveAbsent(children, id);
      }
      RemoveKeepsDistinct(children, id);
      children := Remove(children, id);
    }
  }
}
