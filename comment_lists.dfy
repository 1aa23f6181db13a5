/**
 * The list updates both comment components apply to their copy of a
 * page's comments: a new comment goes on top, an edited one replaces the
 * entries with its id, a deleted one is filtered out.
 */
module CommentLists {

  /** A comment as the client receives it. */
  datatype ClientComment = ClientComment(id: int, user: int, content: string)

  /** `[c, ...cs]` */
  function Prepend(c: ClientComment, cs: seq<ClientComment>): (r: seq<ClientComment>)
    ensures |r| == |cs| + 1 && r[0] == c && r[1..] == cs
  {
    [c] + cs
  }

  /** `cs.map(x => x.id === id ? c : x)`: same length and order, matching entries replaced. */
  function ReplaceById(cs: seq<ClientComment>, id: int, c: ClientComment): (r: seq<ClientComment>)
    ensures |r| == |cs|
    ensures forall i | 0 <= i < |cs| :: r[i] == (if cs[i].id == id then c else cs[i])
  {
    if cs == [] then []
    else [if cs[0].id == id then c else cs[0]] + ReplaceById(cs[1..], id, c)
  }

  /** `cs.filter(x => x.id !== id)` */
  function FilterById(cs: seq<ClientComment>, id: int): (r: seq<ClientComment>)
    ensures |r| <= |cs|
    ensures forall x | x in r :: x in cs && x.id != id
    ensures forall x | x in cs && x.id != id :: x in r
  {
    if cs == [] then []
    else if cs[0].id == id then FilterById(cs[1..], id)
    else [cs[0]] + FilterById(cs[1..], id)
  }

  /** Filtering keeps the survivors in their order: it distributes over concatenation. */
  lemma {:induction false} FilterKeepsOrder(a: seq<ClientComment>, b: seq<ClientComment>, id: int)
    ensures FilterById(a + b, id) == FilterById(a, id) + FilterById(b, id)
  {
    if a == [] {
      assert a + b == b;
    } else {
      assert (a + b)[0] == a[0] && (a + b)[1..] == a[1..] + b;
      FilterKeepsOrder(a[1..], b, id);
    }
  }

  /** Filtering an id no entry carries changes nothing. */
  lemma {:induction false} FilterAbsentId(cs: seq<ClientComment>, id: int)
    requires forall i | 0 <= i < |cs| :: cs[i].id != id
    ensures FilterById(cs, id) == cs
  {
    if cs != [] {
      FilterAbsentId(cs[1..], id);
    }
  }

  /** Deleting after an edit of the same id leaves what deleting alone leaves. */
  lemma {:induction false} DeleteAfterEdit(cs: seq<ClientComment>, id: int, c: ClientComment)
    requires c.id == id
    ensures FilterById(ReplaceById(cs, id, c), id) == FilterById(cs, id)
  {
    if cs != [] {
      var r := ReplaceById(cs, id, c);
      assert r[1..] == ReplaceById(cs[1..], id, c);
      DeleteAfterEdit(cs[1..], id, c);
    }
  }

  /** A new comment with a fresh id survives the deletion of any other id, on top. */
  lemma AddThenDeleteOther(c: ClientComment, cs: seq<ClientComment>, id: int)
    requires c.id != id
    ensures FilterById(Prepend(c, cs), id) == [c] + FilterById(cs, id)
  {
    assert Prepend(c, cs)[1..] == cs;
  }
}
