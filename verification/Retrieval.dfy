/** Packing ranked memories and their graph neighbours into a bounded context. */
module Retrieval {
  import opened Basics

  datatype Memory = Memory(id: nat, content: string)

  /** Where an item comes from: its rank among the hits, or the hit it is linked to. */
  datatype Origin = Hit(rank: nat) | Link(parent: nat)

  datatype Item = Item(id: nat, content: string, original: nat, truncated: bool, origin: Origin)

  datatype Limits = Limits(items: int, total: int, perItem: int, links: int, expand: bool)

  const MARKER := "...[cut]"

  // ---------------------------------------------------------------- shortening

  function Shorten(content: string, max: int): string {
    if max <= 0 then ""
    else if |content| <= max then content
    else if max <= 12 then content[..max]
    else content[..max - 9] + MARKER
  }

  /** A shortened text fits; it is the text itself if that fits, and otherwise a beginning of it of
      full length, or of all but nine characters followed by the eight of the marker. */
  lemma ShortenFits(content: string, max: int)
    ensures |Shorten(content, max)| <= Max(max, 0)
    ensures max > 0 && |content| <= max ==> Shorten(content, max) == content
    ensures 0 < max < |content| ==>
              |Shorten(content, max)| == (if max <= 12 then max else max - 1) &&
              content[..if max <= 12 then max else max - 9] <= Shorten(content, max)
    ensures Shorten(content, max) == "" <==> max <= 0 || content == ""
  {
    assert |MARKER| == 8;
  }

  function Packed(m: Memory, content: string, origin: Origin): Item {
    Item(m.id, content, |m.content|, |content| < |m.content|, origin)
  }

  // ---------------------------------------------------------------- direct hits

  datatype Context = Context(items: seq<Item>, used: int)

  function Room(limits: Limits, c: Context): int { Min(limits.perItem, limits.total - c.used) }

  predicate Full(limits: Limits, c: Context) { |c.items| >= limits.items || limits.total - c.used <= 0 }

  function Append(c: Context, item: Item): Context { Context(c.items + [item], c.used + |item.content|) }

  function AddHit(limits: Limits, c: Context, m: Memory, rank: nat): Context {
    if Full(limits, c) then c
    else
      var content := Shorten(m.content, Room(limits, c));
      if content == "" then c else Append(c, Packed(m, content, Hit(rank)))
  }

  /** The context after the first `n` ranked memories. */
  function Hits(limits: Limits, ranked: seq<Memory>, n: nat): Context
    requires n <= |ranked|
  {
    if n == 0 then Context([], 0) else AddHit(limits, Hits(limits, ranked, n - 1), ranked[n - 1], n - 1)
  }

  // ---------------------------------------------------------------- linked memories

  predicate HasId(items: seq<Item>, id: nat) { exists i :: 0 <= i < |items| && items[i].id == id }

  datatype Expansion = Expansion(context: Context, links: int)

  function AddLink(limits: Limits, e: Expansion, m: Memory, parent: nat): Expansion {
    if HasId(e.context.items, m.id) || e.links <= 0 || e.context.used >= limits.total then e
    else
      var content := Shorten(m.content, Room(limits, e.context));
      if content == "" then e else Expansion(Append(e.context, Packed(m, content, Link(parent))), e.links - 1)
  }

  function Links(limits: Limits, e: Expansion, neighbours: seq<Memory>, n: nat, parent: nat): Expansion
    requires n <= |neighbours|
  {
    if n == 0 then e else AddLink(limits, Links(limits, e, neighbours, n - 1, parent), neighbours[n - 1], parent)
  }

  /** The graph: the neighbours of a memory, given how many may still be added. */
  type Graph = (nat, int) -> seq<Memory>

  /** What one hit is linked to, if links are left. */
  function ExpandOne(limits: Limits, graph: Graph, e: Expansion, id: nat): Expansion {
    if e.links <= 0 then e
    else
      var neighbours := graph(id, e.links);
      Links(limits, e, neighbours, |neighbours|, id)
  }

  /** The expansion of the first `n` hits. */
  function Expand(limits: Limits, graph: Graph, hits: Context, n: nat): Expansion
    requires n <= |hits.items|
  {
    if n == 0 then Expansion(hits, limits.links)
    else ExpandOne(limits, graph, Expand(limits, graph, hits, n - 1), hits.items[n - 1].id)
  }

  function Retrieved(limits: Limits, graph: Graph, ranked: seq<Memory>): Context {
    var hits := Hits(limits, ranked, |ranked|);
    if limits.expand then Expand(limits, graph, hits, |hits.items|).context else hits
  }

  // ---------------------------------------------------------------- the loops

  function Ids(items: seq<Item>): seq<nat> { seq(|items|, i requires 0 <= i < |items| => items[i].id) }

  class MemoryRetrieval {
    const limits: Limits
    const graph: Graph
    /** Memories whose use was recorded, in order. */
    var touched: seq<nat>

    constructor (limits: Limits, graph: Graph)
      ensures this.limits == limits && this.graph == graph && touched == []
    {
      this.limits, this.graph, this.touched := limits, graph, [];
    }

    method PackHits(ranked: seq<Memory>) returns (included: seq<Item>, used: int)
      ensures Context(included, used) == Hits(limits, ranked, |ranked|)
    {
      included, used := [], 0;
      var i := 0;
      while i < |ranked|
        invariant i <= |ranked| && Context(included, used) == Hits(limits, ranked, i)
      {
        if |included| >= limits.items {
          StaysFull(limits, ranked, i, |ranked|);
          return;
        }
        var remaining := limits.total - used;
        if remaining <= 0 {
          StaysFull(limits, ranked, i, |ranked|);
          return;
        }
        var content := Shorten(ranked[i].content, Min(limits.perItem, remaining));
        if content != "" {
          included := included + [Packed(ranked[i], content, Hit(i))];
          used := used + |content|;
        }
        i := i + 1;
      }
    }

    /** Neighbours of one hit, while links and characters last; each one added is recorded as used. */
    method PackLinks(included: seq<Item>, used: int, links: int, neighbours: seq<Memory>, parent: nat)
      returns (items: seq<Item>, chars: int, left: int, ghost more: seq<Item>)
      modifies this
      ensures Expansion(Context(items, chars), left)
           == Links(limits, Expansion(Context(included, used), links), neighbours, |neighbours|, parent)
      ensures items == included + more && touched == old(touched) + Ids(more)
    {
      ghost var e := Expansion(Context(included, used), links);
      items, chars, left, more := included, used, links, [];
      var j := 0;
      while j < |neighbours|
        invariant j <= |neighbours| && Expansion(Context(items, chars), left) == Links(limits, e, neighbours, j, parent)
        invariant items == included + more && touched == old(touched) + Ids(more)
      {
        var m := neighbours[j];
        if !HasId(items, m.id) {
          if left <= 0 || chars >= limits.total {
            LinksStop(limits, e, neighbours, j, |neighbours|, parent);
            return;
          }
          var content := Shorten(m.content, Min(limits.perItem, limits.total - chars));
          if content != "" {
            var item := Packed(m, content, Link(parent));
            IdsAppend(more, [item]);
            items, chars, left := items + [item], chars + |content|, left - 1;
            touched := touched + [m.id];
            more := more + [item];
          }
        }
        j := j + 1;
      }
    }

    /** Records the use of the hits. */
    method TouchAll(items: seq<Item>)
      modifies this
      ensures touched == old(touched) + Ids(items)
    {
      for i := 0 to |items|
        invariant touched == old(touched) + Ids(items[..i])
      {
        TakePush(items, i);
        IdsAppend(items[..i], [items[i]]);
        touched := touched + [items[i].id];
      }
      TakeAll(items);
    }

    /** Hits first, each recorded as used; then what they are linked to. */
    method Retrieve(ranked: seq<Memory>) returns (items: seq<Item>, chars: int)
      modifies this
      ensures Context(items, chars) == Retrieved(limits, graph, ranked)
      ensures touched == old(touched) + Ids(items)
    {
      items, chars := PackHits(ranked);
      TouchAll(items);
      if !limits.expand {
        return;
      }
      ghost var hits, added := items, [];
      items, chars, added := ExpandHits(items, chars);
      IdsAppend(hits, added);
      ConcatAssoc(old(touched), Ids(hits), Ids(added));
    }

    method ExpandHits(direct: seq<Item>, used: int) returns (items: seq<Item>, chars: int, ghost added: seq<Item>)
      modifies this
      ensures Context(items, chars) == Expand(limits, graph, Context(direct, used), |direct|).context
      ensures items == direct + added && touched == old(touched) + Ids(added)
    {
      ghost var hits := Context(direct, used);
      var links := limits.links;
      items, chars, added := direct, used, [];
      var i := 0;
      while i < |direct|
        invariant i <= |direct| && items == direct + added
        invariant Expansion(Context(items, chars), links) == Expand(limits, graph, hits, i)
        invariant touched == old(touched) + Ids(added)
      {
        if links <= 0 {
          ExpandStop(limits, graph, hits, i, |direct|);
          return;
        }
        ghost var more;
        items, chars, links, more := PackLinks(items, chars, links, graph(direct[i].id, links), direct[i].id);
        IdsAppend(added, more);
        ConcatAssoc(direct, added, more);
        added := added + more;
        i := i + 1;
      }
    }
  }

  lemma IdsAppend(a: seq<Item>, b: seq<Item>)
    ensures Ids(a + b) == Ids(a) + Ids(b)
  {
  }

  lemma {:induction false} StaysFull(limits: Limits, ranked: seq<Memory>, i: nat, n: nat)
    requires i <= n <= |ranked| && Full(limits, Hits(limits, ranked, i))
    ensures Hits(limits, ranked, n) == Hits(limits, ranked, i)
  {
    if i < n {
      StaysFull(limits, ranked, i, n - 1);
    }
  }

  lemma {:induction false} LinksStop(limits: Limits, e: Expansion, neighbours: seq<Memory>, j: nat, n: nat, parent: nat)
    requires j <= n <= |neighbours|
    requires var f := Links(limits, e, neighbours, j, parent); f.links <= 0 || f.context.used >= limits.total
    ensures Links(limits, e, neighbours, n, parent) == Links(limits, e, neighbours, j, parent)
  {
    if j < n {
      LinksStop(limits, e, neighbours, j, n - 1, parent);
    }
  }

  lemma {:induction false} ExpandStop(limits: Limits, graph: Graph, hits: Context, i: nat, n: nat)
    requires i <= n <= |hits.items| && Expand(limits, graph, hits, i).links <= 0
    ensures Expand(limits, graph, hits, n) == Expand(limits, graph, hits, i)
  {
    if i < n {
      ExpandStop(limits, graph, hits, i, n - 1);
    }
  }
}
