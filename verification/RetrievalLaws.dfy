/** What every retrieved context satisfies, for every ranking and every graph. */
module RetrievalLaws {
  import opened Basics
  import opened Retrieval

  predicate DistinctIds(ms: seq<Memory>) { forall i, j :: 0 <= i < j < |ms| ==> ms[i].id != ms[j].id }

  predicate DistinctItems(items: seq<Item>) { forall i, j :: 0 <= i < j < |items| ==> items[i].id != items[j].id }

  function TotalLength(items: seq<Item>): nat {
    if items == [] then 0 else TotalLength(items[..|items| - 1]) + |items[|items| - 1].content|
  }

  /** A text or a beginning of it, possibly followed by the marker. */
  ghost predicate CutFrom(content: string, whole: string) {
    content == whole || exists k :: 0 <= k < |whole| && IsCut(content, whole, k)
  }

  predicate IsCut(content: string, whole: string, k: nat)
    requires k < |whole|
  {
    content == whole[..k] || content == whole[..k] + MARKER
  }

  lemma ShortenCuts(whole: string, max: int)
    requires Shorten(whole, max) != ""
    ensures CutFrom(Shorten(whole, max), whole)
  {
    if |whole| > max {
      assert IsCut(Shorten(whole, max), whole, if max <= 12 then max else max - 9);
    }
  }

  /** The budgets: the characters used are the sum of the lengths and stay within the total, every
      item is nonempty and fits the limit of one item, and no id occurs twice. */
  predicate WithinBudget(limits: Limits, c: Context) {
    && c.used == TotalLength(c.items) && c.used <= Max(limits.total, 0) && DistinctItems(c.items)
    && (forall i :: 0 <= i < |c.items| ==> 0 < |c.items[i].content| <= limits.perItem)
  }

  lemma AppendWithinBudget(limits: Limits, c: Context, m: Memory, origin: Origin)
    requires WithinBudget(limits, c) && c.used < limits.total && !HasId(c.items, m.id)
    requires Shorten(m.content, Room(limits, c)) != ""
    ensures WithinBudget(limits, Append(c, Packed(m, Shorten(m.content, Room(limits, c)), origin)))
  {
    var content := Shorten(m.content, Room(limits, c));
    ShortenFits(m.content, Room(limits, c));
    var more := c.items + [Packed(m, content, origin)];
    assert more[..|c.items|] == c.items;
  }

  // ---------------------------------------------------------------- direct hits

  /** The items of the first `n` ranked memories: in rank order, each cut from its memory. */
  predicate InRankOrder(ranked: seq<Memory>, items: seq<Item>, n: nat) {
    && (forall i :: 0 <= i < |items| ==>
          items[i].origin.Hit? && items[i].origin.rank < n <= |ranked| &&
          items[i].id == ranked[items[i].origin.rank].id && items[i].original == |ranked[items[i].origin.rank].content|)
    && (forall i, j :: 0 <= i < j < |items| ==> items[i].origin.rank < items[j].origin.rank)
  }

  ghost predicate AllCut(ranked: seq<Memory>, items: seq<Item>) {
    forall i :: 0 <= i < |items| && items[i].origin.Hit? && items[i].origin.rank < |ranked| ==>
      CutFrom(items[i].content, ranked[items[i].origin.rank].content)
  }

  lemma NotYetIn(ranked: seq<Memory>, items: seq<Item>, n: nat)
    requires DistinctIds(ranked) && n < |ranked| && InRankOrder(ranked, items, n)
    ensures !HasId(items, ranked[n].id)
  {
  }

  lemma RankAppend(ranked: seq<Memory>, items: seq<Item>, n: nat, item: Item)
    requires n < |ranked| && InRankOrder(ranked, items, n) && AllCut(ranked, items)
    requires item.origin == Hit(n) && item.id == ranked[n].id && item.original == |ranked[n].content|
    requires CutFrom(item.content, ranked[n].content)
    ensures InRankOrder(ranked, items + [item], n + 1) && AllCut(ranked, items + [item])
  {
  }

  /** One ranked memory more. */
  lemma AddHitFits(limits: Limits, ranked: seq<Memory>, c: Context, n: nat)
    requires DistinctIds(ranked) && n < |ranked| && !Full(limits, c)
    requires Shorten(ranked[n].content, Room(limits, c)) != ""
    requires WithinBudget(limits, c) && InRankOrder(ranked, c.items, n) && AllCut(ranked, c.items)
    ensures var next := AddHit(limits, c, ranked[n], n);
            WithinBudget(limits, next) && InRankOrder(ranked, next.items, n + 1) && AllCut(ranked, next.items)
  {
    var content := Shorten(ranked[n].content, Room(limits, c));
    NotYetIn(ranked, c.items, n);
    AppendWithinBudget(limits, c, ranked[n], Hit(n));
    ShortenCuts(ranked[n].content, Room(limits, c));
    RankAppend(ranked, c.items, n, Packed(ranked[n], content, Hit(n)));
  }

  lemma RankLater(ranked: seq<Memory>, items: seq<Item>, n: nat)
    requires n < |ranked| && InRankOrder(ranked, items, n)
    ensures InRankOrder(ranked, items, n + 1)
  {
  }

  lemma {:induction false} HitsFit(limits: Limits, ranked: seq<Memory>, n: nat)
    requires DistinctIds(ranked) && n <= |ranked|
    ensures var c := Hits(limits, ranked, n);
            && WithinBudget(limits, c) && InRankOrder(ranked, c.items, n) && AllCut(ranked, c.items)
            && |c.items| <= Max(limits.items, 0)
  {
    if n > 0 {
      HitsFit(limits, ranked, n - 1);
      var c := Hits(limits, ranked, n - 1);
      if Full(limits, c) || Shorten(ranked[n - 1].content, Room(limits, c)) == "" {
        assert Hits(limits, ranked, n) == c;
        RankLater(ranked, c.items, n - 1);
      } else {
        AddHitFits(limits, ranked, c, n - 1);
      }
    }
  }

  /** A hit is its memory's text, shortened to the room that the better ones leave and no further. */
  predicate HitFilled(limits: Limits, ranked: seq<Memory>, item: Item, n: nat) {
    && item.origin.Hit? && item.origin.rank < n <= |ranked|
    && var m, before := ranked[item.origin.rank], Hits(limits, ranked, item.origin.rank);
       item.content == Shorten(m.content, Room(limits, before)) && (item.truncated <==> |item.content| < |m.content|)
  }

  lemma {:induction false} HitsAreFilled(limits: Limits, ranked: seq<Memory>, n: nat, i: nat)
    requires n <= |ranked| && i < |Hits(limits, ranked, n).items|
    ensures HitFilled(limits, ranked, Hits(limits, ranked, n).items[i], n)
  {
    var c := Hits(limits, ranked, n - 1);
    if i < |c.items| {
      HitsAreFilled(limits, ranked, n - 1, i);
      assert Hits(limits, ranked, n).items[i] == c.items[i];
    }
  }

  predicate HasRank(items: seq<Item>, rank: nat) { exists i :: 0 <= i < |items| && items[i].origin == Hit(rank) }

  lemma StillRanked(a: seq<Item>, b: seq<Item>, rank: nat)
    requires a <= b && HasRank(a, rank)
    ensures HasRank(b, rank)
  {
    var i :| 0 <= i < |a| && a[i].origin == Hit(rank);
    assert b[i] == a[i];
  }

  /** A memory is passed over only when it is empty or a budget is used up: while the context is not
      full, every ranked memory with a text is in it. */
  lemma {:induction false} NothingIsPassedOver(limits: Limits, ranked: seq<Memory>, n: nat, rank: nat)
    requires n <= |ranked| && rank < n && ranked[rank].content != "" && limits.perItem > 0
    requires !Full(limits, Hits(limits, ranked, n))
    ensures HasRank(Hits(limits, ranked, n).items, rank)
  {
    var c := Hits(limits, ranked, n - 1);
    var next := Hits(limits, ranked, n);
    assert !Full(limits, c);
    ShortenFits(ranked[n - 1].content, Room(limits, c));
    if rank == n - 1 {
      assert next.items[|c.items|].origin == Hit(rank);
    } else {
      NothingIsPassedOver(limits, ranked, n - 1, rank);
      StillRanked(c.items, next.items, rank);
    }
  }

  // ---------------------------------------------------------------- linked memories

  /** An expansion of the hits: they come first and unchanged, the links after them name one of
      them as their parent, and each took one of the links. */
  predicate Extends(limits: Limits, hits: Context, e: Expansion) {
    && WithinBudget(limits, e.context) && hits.items <= e.context.items
    && (limits.links >= 0 ==> 0 <= e.links)
    && |e.context.items| - |hits.items| == limits.links - e.links
    && (forall i :: |hits.items| <= i < |e.context.items| ==>
          e.context.items[i].origin.Link? && HasId(hits.items, e.context.items[i].origin.parent))
  }

  lemma AddLinkExtends(limits: Limits, hits: Context, e: Expansion, m: Memory, parent: nat)
    requires Extends(limits, hits, e) && HasId(hits.items, parent)
    ensures Extends(limits, hits, AddLink(limits, e, m, parent))
  {
    if !HasId(e.context.items, m.id) && e.links > 0 && e.context.used < limits.total &&
       Shorten(m.content, Room(limits, e.context)) != "" {
      AppendWithinBudget(limits, e.context, m, Link(parent));
    }
  }

  lemma {:induction false} LinksExtend(limits: Limits, hits: Context, e: Expansion, neighbours: seq<Memory>, n: nat,
                                       parent: nat)
    requires Extends(limits, hits, e) && HasId(hits.items, parent) && n <= |neighbours|
    ensures Extends(limits, hits, Links(limits, e, neighbours, n, parent))
  {
    if n > 0 {
      LinksExtend(limits, hits, e, neighbours, n - 1, parent);
      var before := Links(limits, e, neighbours, n - 1, parent);
      AddLinkExtends(limits, hits, before, neighbours[n - 1], parent);
      assert Links(limits, e, neighbours, n, parent) == AddLink(limits, before, neighbours[n - 1], parent);
    }
  }

  lemma {:induction false} ExpandExtends(limits: Limits, graph: Graph, hits: Context, n: nat)
    requires WithinBudget(limits, hits) && n <= |hits.items|
    ensures Extends(limits, hits, Expand(limits, graph, hits, n))
  {
    if n > 0 {
      ExpandExtends(limits, graph, hits, n - 1);
      var e, id := Expand(limits, graph, hits, n - 1), hits.items[n - 1].id;
      if e.links > 0 {
        var neighbours := graph(id, e.links);
        assert HasId(hits.items, id);
        LinksExtend(limits, hits, e, neighbours, |neighbours|, id);
      }
    }
  }

  // ---------------------------------------------------------------- which memories are linked

  /** The j-th neighbour of the i-th hit. */
  datatype Place = Place(hit: nat, neighbour: nat)

  predicate Before(a: Place, b: Place) { a.hit < b.hit || (a.hit == b.hit && a.neighbour < b.neighbour) }

  /** What the graph was asked for the i-th hit: the neighbours, up to the number of links then left. */
  function Neighbours(limits: Limits, graph: Graph, hits: Context, i: nat): seq<Memory>
    requires i < |hits.items|
  {
    graph(hits.items[i].id, Expand(limits, graph, hits, i).links)
  }

  predicate IsPlace(limits: Limits, graph: Graph, hits: Context, p: Place) {
    p.hit < |hits.items| && p.neighbour < |Neighbours(limits, graph, hits, p.hit)|
  }

  function At(limits: Limits, graph: Graph, hits: Context, p: Place): Memory
    requires IsPlace(limits, graph, hits, p)
  {
    Neighbours(limits, graph, hits, p.hit)[p.neighbour]
  }

  /** The expansion after the first `n` neighbours of the i-th hit. */
  function Partly(limits: Limits, graph: Graph, hits: Context, i: nat, n: nat): Expansion
    requires i < |hits.items| && n <= |Neighbours(limits, graph, hits, i)|
  {
    Links(limits, Expand(limits, graph, hits, i), Neighbours(limits, graph, hits, i), n, hits.items[i].id)
  }

  function UpTo(limits: Limits, graph: Graph, hits: Context, p: Place): Expansion
    requires IsPlace(limits, graph, hits, p)
  {
    Partly(limits, graph, hits, p.hit, p.neighbour)
  }

  /** The item made of the neighbour at a place: its text, shortened to the room left and no further. */
  predicate MadeOf(limits: Limits, graph: Graph, hits: Context, item: Item, p: Place) {
    && IsPlace(limits, graph, hits, p) && item.id == At(limits, graph, hits, p).id
    && item.origin == Link(hits.items[p.hit].id)
    && item.original == |At(limits, graph, hits, p).content|
    && (item.truncated <==> |item.content| < item.original)
    && item.content == Shorten(At(limits, graph, hits, p).content, Room(limits, UpTo(limits, graph, hits, p).context))
  }

  /** The links up to a place: made of neighbours, in the order of their places `at`. */
  predicate Placed(limits: Limits, graph: Graph, hits: Context, e: Expansion, at: seq<Place>, end: Place) {
    && |e.context.items| == |hits.items| + |at|
    && (forall k :: 0 <= k < |at| ==> MadeOf(limits, graph, hits, e.context.items[|hits.items| + k], at[k]))
    && (forall k :: 0 <= k < |at| ==> Before(at[k], end))
    && (forall k, l :: 0 <= k < l < |at| ==> Before(at[k], at[l]))
  }

  predicate Exhausted(limits: Limits, e: Expansion) { e.links <= 0 || e.context.used >= limits.total }

  lemma PlaceMore(limits: Limits, graph: Graph, hits: Context, at: seq<Place>, p: Place) returns (more: seq<Place>)
    requires IsPlace(limits, graph, hits, p) && Placed(limits, graph, hits, UpTo(limits, graph, hits, p), at, p)
    ensures Placed(limits, graph, hits, Partly(limits, graph, hits, p.hit, p.neighbour + 1), more,
                   Place(p.hit, p.neighbour + 1))
  {
    var e, m := UpTo(limits, graph, hits, p), At(limits, graph, hits, p);
    var next := AddLink(limits, e, m, hits.items[p.hit].id);
    assert next == Partly(limits, graph, hits, p.hit, p.neighbour + 1);
    if next == e {
      more := at;
    } else {
      more := at + [p];
      assert MadeOf(limits, graph, hits, next.context.items[|hits.items| + |at|], p);
    }
  }

  lemma {:induction false} LinksPlaced(limits: Limits, graph: Graph, hits: Context, at: seq<Place>, i: nat, n: nat)
    returns (more: seq<Place>)
    requires i < |hits.items| && n <= |Neighbours(limits, graph, hits, i)|
    requires Placed(limits, graph, hits, Expand(limits, graph, hits, i), at, Place(i, 0))
    ensures Placed(limits, graph, hits, Partly(limits, graph, hits, i, n), more, Place(i, n))
  {
    if n == 0 {
      assert Partly(limits, graph, hits, i, 0) == Expand(limits, graph, hits, i);
      more := at;
    } else {
      more := LinksPlaced(limits, graph, hits, at, i, n - 1);
      more := PlaceMore(limits, graph, hits, more, Place(i, n - 1));
    }
  }

  lemma PlacedLater(limits: Limits, graph: Graph, hits: Context, e: Expansion, at: seq<Place>, i: nat, j: nat)
    requires Placed(limits, graph, hits, e, at, Place(i, j))
    ensures Placed(limits, graph, hits, e, at, Place(i + 1, 0))
  {
  }

  /** Every linked item is made of a neighbour of its parent, cut to fit, and they come in the order of
      the hits and, for each hit, of its neighbours. */
  lemma {:induction false} LinksAreNeighbours(limits: Limits, graph: Graph, hits: Context, n: nat)
    returns (at: seq<Place>)
    requires n <= |hits.items|
    ensures Placed(limits, graph, hits, Expand(limits, graph, hits, n), at, Place(n, 0))
  {
    if n == 0 {
      at := [];
    } else {
      at := LinksAreNeighbours(limits, graph, hits, n - 1);
      var e, all := Expand(limits, graph, hits, n - 1), |Neighbours(limits, graph, hits, n - 1)|;
      if e.links <= 0 {
        PlacedLater(limits, graph, hits, e, at, n - 1, 0);
      } else {
        at := LinksPlaced(limits, graph, hits, at, n - 1, all);
        PlacedLater(limits, graph, hits, Expand(limits, graph, hits, n), at, n - 1, all);
      }
    }
  }

  lemma PlacedUpTo(limits: Limits, graph: Graph, hits: Context, p: Place) returns (at: seq<Place>)
    requires IsPlace(limits, graph, hits, p)
    ensures Placed(limits, graph, hits, UpTo(limits, graph, hits, p), at, p)
    ensures Expand(limits, graph, hits, p.hit).links <= 0 ==>
              UpTo(limits, graph, hits, p) == Expand(limits, graph, hits, p.hit)
  {
    at := LinksAreNeighbours(limits, graph, hits, p.hit);
    at := LinksPlaced(limits, graph, hits, at, p.hit, p.neighbour);
    LinksGrow(limits, Expand(limits, graph, hits, p.hit), Neighbours(limits, graph, hits, p.hit), p.neighbour,
              hits.items[p.hit].id);
  }

  lemma StillHas(a: seq<Item>, b: seq<Item>, id: nat)
    requires a <= b && HasId(a, id)
    ensures HasId(b, id)
  {
    var i :| 0 <= i < |a| && a[i].id == id;
    assert b[i] == a[i];
  }

  /** A neighbour is added, known already, empty, or too late. */
  lemma AddLinkExactly(limits: Limits, e: Expansion, m: Memory, parent: nat)
    requires limits.perItem > 0 && m.content != ""
    ensures || HasId(AddLink(limits, e, m, parent).context.items, m.id)
            || (Exhausted(limits, e) && AddLink(limits, e, m, parent) == e)
  {
    ShortenFits(m.content, Room(limits, e.context));
    var next := AddLink(limits, e, m, parent);
    if next != e {
      assert next.context.items[|e.context.items|].id == m.id;
    }
  }

  lemma {:induction false} LinksAddAll(limits: Limits, e: Expansion, neighbours: seq<Memory>, n: nat, parent: nat,
                                       j: nat)
    requires limits.perItem > 0 && j < n <= |neighbours| && neighbours[j].content != ""
    ensures var f := Links(limits, e, neighbours, n, parent);
            HasId(f.context.items, neighbours[j].id) ||
            (Exhausted(limits, f) && f == Links(limits, e, neighbours, j, parent))
  {
    var before := Links(limits, e, neighbours, n - 1, parent);
    var f := Links(limits, e, neighbours, n, parent);
    assert before.context.items <= f.context.items;
    if j == n - 1 {
      AddLinkExactly(limits, before, neighbours[j], parent);
    } else {
      LinksAddAll(limits, e, neighbours, n - 1, parent, j);
      if HasId(before.context.items, neighbours[j].id) {
        StillHas(before.context.items, f.context.items, neighbours[j].id);
      }
    }
  }

  lemma {:induction false} LinksGrow(limits: Limits, e: Expansion, neighbours: seq<Memory>, n: nat, parent: nat)
    requires n <= |neighbours|
    ensures e.context.items <= Links(limits, e, neighbours, n, parent).context.items
    ensures Exhausted(limits, e) ==> Links(limits, e, neighbours, n, parent) == e
  {
    if n > 0 {
      LinksGrow(limits, e, neighbours, n - 1, parent);
    }
  }

  /** The memory at a place is in the expansion, or links or characters were used up when its turn came
      and nothing was added after that. */
  ghost predicate AddedOrLate(limits: Limits, graph: Graph, hits: Context, e: Expansion, p: Place)
    requires IsPlace(limits, graph, hits, p)
  {
    || HasId(e.context.items, At(limits, graph, hits, p).id)
    || (Exhausted(limits, e) && exists at :: Placed(limits, graph, hits, e, at, p))
  }

  lemma LastHitAddsAll(limits: Limits, graph: Graph, hits: Context, n: nat, p: Place)
    requires limits.perItem > 0 && n <= |hits.items| && p.hit == n - 1 && IsPlace(limits, graph, hits, p)
    requires At(limits, graph, hits, p).content != ""
    ensures AddedOrLate(limits, graph, hits, Expand(limits, graph, hits, n), p)
  {
    var e, f := Expand(limits, graph, hits, p.hit), Expand(limits, graph, hits, n);
    if e.links > 0 {
      var neighbours := Neighbours(limits, graph, hits, p.hit);
      LinksAddAll(limits, e, neighbours, |neighbours|, hits.items[p.hit].id, p.neighbour);
    }
    if !HasId(f.context.items, At(limits, graph, hits, p).id) {
      var at := PlacedUpTo(limits, graph, hits, p);
      assert Exhausted(limits, f) && f == UpTo(limits, graph, hits, p);
    }
  }

  lemma ExpandGrows(limits: Limits, graph: Graph, hits: Context, n: nat)
    requires n < |hits.items|
    ensures Expand(limits, graph, hits, n).context.items <= Expand(limits, graph, hits, n + 1).context.items
    ensures Exhausted(limits, Expand(limits, graph, hits, n)) ==>
              Expand(limits, graph, hits, n + 1) == Expand(limits, graph, hits, n)
  {
    var e, neighbours := Expand(limits, graph, hits, n), Neighbours(limits, graph, hits, n);
    LinksGrow(limits, e, neighbours, |neighbours|, hits.items[n].id);
  }

  lemma AddedStays(limits: Limits, graph: Graph, hits: Context, e: Expansion, f: Expansion, p: Place)
    requires IsPlace(limits, graph, hits, p) && AddedOrLate(limits, graph, hits, e, p)
    requires e.context.items <= f.context.items && (Exhausted(limits, e) ==> f == e)
    ensures AddedOrLate(limits, graph, hits, f, p)
  {
    if f != e {
      StillHas(e.context.items, f.context.items, At(limits, graph, hits, p).id);
    }
  }

  /** A neighbour with a text is passed over only when it is known already, or when links or characters
      were used up when its turn came; after that nothing is added. */
  lemma {:induction false} NoNeighbourIsPassedOver(limits: Limits, graph: Graph, hits: Context, n: nat, p: Place)
    requires limits.perItem > 0 && n <= |hits.items| && p.hit < n && IsPlace(limits, graph, hits, p)
    requires At(limits, graph, hits, p).content != ""
    ensures AddedOrLate(limits, graph, hits, Expand(limits, graph, hits, n), p)
  {
    if p.hit == n - 1 {
      LastHitAddsAll(limits, graph, hits, n, p);
    } else {
      NoNeighbourIsPassedOver(limits, graph, hits, n - 1, p);
      ExpandGrows(limits, graph, hits, n - 1);
      AddedStays(limits, graph, hits, Expand(limits, graph, hits, n - 1), Expand(limits, graph, hits, n), p);
    }
  }

  // ---------------------------------------------------------------- the whole context

  /** For every ranking of distinct memories and every graph: the characters used are the sum of the
      items and within the total, each item fits, no memory comes twice, there are at most as many
      items as hits and links are allowed; hits come first, in rank order and cut from their
      memories; what follows is linked to one of them. */
  lemma RetrievedIsBounded(limits: Limits, graph: Graph, ranked: seq<Memory>)
    requires DistinctIds(ranked)
    ensures var c, hits := Retrieved(limits, graph, ranked), Hits(limits, ranked, |ranked|);
            && WithinBudget(limits, c)
            && |c.items| <= Max(limits.items, 0) + Max(limits.links, 0)
            && hits.items <= c.items && InRankOrder(ranked, hits.items, |ranked|) && AllCut(ranked, hits.items)
            && (forall i :: |hits.items| <= i < |c.items| ==>
                  c.items[i].origin.Link? && HasId(hits.items, c.items[i].origin.parent))
  {
    var hits := Hits(limits, ranked, |ranked|);
    HitsFit(limits, ranked, |ranked|);
    ExpandExtends(limits, graph, hits, |hits.items|);
    NoLinksNoMore(limits, graph, hits, |hits.items|);
  }

  lemma {:induction false} NoLinksNoMore(limits: Limits, graph: Graph, hits: Context, n: nat)
    requires n <= |hits.items|
    ensures limits.links <= 0 ==> Expand(limits, graph, hits, n) == Expansion(hits, limits.links)
  {
    if n > 0 {
      NoLinksNoMore(limits, graph, hits, n - 1);
    }
  }
}
