/** The character budget of a document query: a beginning of the ranking, cited in order. */
module QueryContext {
  import opened Basics
  import opened Retrieval

  datatype Passage = Passage(citation: nat, content: string)

  datatype Answer = Answer(passages: seq<Passage>, used: int, stopped: bool)

  function Size(ps: seq<Passage>): nat {
    if ps == [] then 0 else Size(ps[..|ps| - 1]) + |ps[|ps| - 1].content|
  }

  /** No room, or too little of it to cut the text. */
  predicate NoRoom(content: string, room: int) { room <= 0 || (|content| > room && room <= 12) }

  function Fitted(content: string, room: int): string
    requires !NoRoom(content, room)
  {
    if |content| > room then content[..room - 9] + MARKER else content
  }

  /** One more passage, or the end: the loop breaks rather than skips. */
  function Cite(limit: int, max: int, a: Answer, content: string): Answer {
    if a.stopped || |a.passages| >= limit || NoRoom(content, max - a.used) then a.(stopped := true)
    else
      var text := Fitted(content, max - a.used);
      Answer(a.passages + [Passage(|a.passages| + 1, text)], a.used + |text|, false)
  }

  function Cited(limit: int, max: int, ranked: seq<string>, n: nat): Answer
    requires n <= |ranked|
  {
    if n == 0 then Answer([], 0, false) else Cite(limit, max, Cited(limit, max, ranked, n - 1), ranked[n - 1])
  }

  lemma {:induction false} StaysStopped(limit: int, max: int, ranked: seq<string>, i: nat, n: nat)
    requires i <= n <= |ranked| && Cited(limit, max, ranked, i).stopped
    ensures Cited(limit, max, ranked, n) == Cited(limit, max, ranked, i)
  {
    if i < n {
      StaysStopped(limit, max, ranked, i, n - 1);
    }
  }

  method BuildContext(limit: int, max: int, ranked: seq<string>) returns (passages: seq<Passage>, used: int)
    ensures passages == Cited(limit, max, ranked, |ranked|).passages && used == Cited(limit, max, ranked, |ranked|).used
  {
    passages, used := [], 0;
    for i := 0 to |ranked|
      invariant Cited(limit, max, ranked, i) == Answer(passages, used, false)
    {
      var remaining := max - used;
      if |passages| >= limit || NoRoom(ranked[i], remaining) {
        StaysStopped(limit, max, ranked, i + 1, |ranked|);
        return;
      }
      var content := Fitted(ranked[i], remaining);
      passages := passages + [Passage(|passages| + 1, content)];
      used := used + |content|;
    }
  }

  /** Cut to what was left, less one character. */
  predicate CutTo(content: string, whole: string, room: int) {
    12 < room < |whole| && content == whole[..room - 9] + MARKER && |content| == room - 1
  }

  /** Passage `i` is the i-th of the ranking: whole, or cut to the room left at its place. */
  predicate Fits(ranked: seq<string>, ps: seq<Passage>, max: int, i: nat)
    requires i < |ps| <= |ranked|
  {
    && ps[i].citation == i + 1
    && (ps[i].content == ranked[i] || CutTo(ps[i].content, ranked[i], max - Size(ps[..i])))
  }

  lemma {:induction false} SizeMonotone(ps: seq<Passage>, i: nat)
    requires i <= |ps|
    ensures Size(ps[..i]) <= Size(ps)
  {
    if i < |ps| {
      SizeMonotone(ps[..|ps| - 1], i);
      assert ps[..|ps| - 1][..i] == ps[..i];
    } else {
      assert ps[..i] == ps;
    }
  }

  /** One more passage fits, and those before it fit as they did. */
  lemma FitsMore(ranked: seq<string>, ps: seq<Passage>, max: int, content: string)
    requires |ps| < |ranked| && (forall i :: 0 <= i < |ps| ==> Fits(ranked, ps, max, i))
    requires content == ranked[|ps|] || CutTo(content, ranked[|ps|], max - Size(ps))
    ensures var more := ps + [Passage(|ps| + 1, content)];
            Size(more) == Size(ps) + |content| && forall i :: 0 <= i < |more| ==> Fits(ranked, more, max, i)
  {
    var more := ps + [Passage(|ps| + 1, content)];
    assert more[..|ps|] == ps;
    forall i | 0 <= i < |more| ensures Fits(ranked, more, max, i) {
      if i < |ps| {
        assert Fits(ranked, ps, max, i);
        assert more[..i] == ps[..i];
      }
    }
  }

  /** The passages are the first ones of the ranking, in order and numbered, each whole or cut to the
      room left; together they fit, and there are at most `limit`. */
  predicate Begins(limit: int, max: int, ranked: seq<string>, a: Answer, n: nat) {
    && |a.passages| <= n <= |ranked| && |a.passages| <= Max(limit, 0)
    && a.used == Size(a.passages) <= Max(max, 0)
    && (!a.stopped ==> |a.passages| == n)
    && (forall i :: 0 <= i < |a.passages| ==> Fits(ranked, a.passages, max, i))
  }

  lemma CiteBegins(limit: int, max: int, ranked: seq<string>, a: Answer, n: nat)
    requires Begins(limit, max, ranked, a, n) && n < |ranked| && !Cite(limit, max, a, ranked[n]).stopped
    ensures Begins(limit, max, ranked, Cite(limit, max, a, ranked[n]), n + 1)
  {
    FitsMore(ranked, a.passages, max, Fitted(ranked[n], max - a.used));
  }

  lemma StopBegins(limit: int, max: int, ranked: seq<string>, a: Answer, n: nat)
    requires Begins(limit, max, ranked, a, n) && n < |ranked|
    ensures Begins(limit, max, ranked, a.(stopped := true), n + 1)
  {
  }

  /** For every ranking, and wherever the loop stops. */
  lemma {:induction false} CitedIsABeginning(limit: int, max: int, ranked: seq<string>, n: nat)
    requires n <= |ranked|
    ensures Begins(limit, max, ranked, Cited(limit, max, ranked, n), n)
  {
    if n > 0 {
      CitedIsABeginning(limit, max, ranked, n - 1);
      var a := Cited(limit, max, ranked, n - 1);
      if Cited(limit, max, ranked, n).stopped {
        StopBegins(limit, max, ranked, a, n - 1);
      } else {
        CiteBegins(limit, max, ranked, a, n - 1);
      }
    }
  }

  /** Why a text ends the context as the i-th passage: as many as asked for, no room, or a text longer
      than the room where at most 12 characters are left. */
  predicate Ends(limit: int, text: string, i: nat, room: int) {
    i >= limit || room <= 0 || (|text| > room && room <= 12)
  }

  /** Passage `i` did not end the context, and is its text as far as there was room for it. */
  predicate Taken(limit: int, max: int, ranked: seq<string>, ps: seq<Passage>, i: nat)
    requires i < |ps| <= |ranked|
  {
    var room := max - Size(ps[..i]);
    !Ends(limit, ranked[i], i, room) && ps[i] == Passage(i + 1, Shorten(ranked[i], room))
  }

  /** The text that ends the context is the one after the last passage; there is none if every text is
      a passage. */
  predicate EndsThere(limit: int, max: int, ranked: seq<string>, a: Answer, n: nat) {
    && |a.passages| <= n <= |ranked| && a.used == Size(a.passages)
    && (forall i :: 0 <= i < |a.passages| ==> Taken(limit, max, ranked, a.passages, i))
    && (a.stopped <==> |a.passages| < n)
    && (a.stopped ==> Ends(limit, ranked[|a.passages|], |a.passages|, max - a.used))
  }

  lemma TakenStays(limit: int, max: int, ranked: seq<string>, ps: seq<Passage>, p: Passage, i: nat)
    requires i < |ps| < |ranked| && Taken(limit, max, ranked, ps, i)
    ensures Taken(limit, max, ranked, ps + [p], i)
  {
    assert (ps + [p])[..i] == ps[..i];
  }

  lemma SizePush(ps: seq<Passage>, p: Passage)
    ensures Size(ps + [p]) == Size(ps) + |p.content|
  {
    assert (ps + [p])[..|ps|] == ps;
  }

  lemma TakenLast(limit: int, max: int, ranked: seq<string>, ps: seq<Passage>, p: Passage)
    requires |ps| < |ranked| && !Ends(limit, ranked[|ps|], |ps|, max - Size(ps))
    requires p == Passage(|ps| + 1, Shorten(ranked[|ps|], max - Size(ps)))
    ensures Taken(limit, max, ranked, ps + [p], |ps|)
  {
    var more := ps + [p];
    assert more[..|ps|] == ps;
    assert more[|ps|] == p;
  }

  lemma CiteEnds(limit: int, max: int, ranked: seq<string>, a: Answer, n: nat)
    requires EndsThere(limit, max, ranked, a, n) && n < |ranked|
    ensures EndsThere(limit, max, ranked, Cite(limit, max, a, ranked[n]), n + 1)
  {
    if !Cite(limit, max, a, ranked[n]).stopped {
      var p := Passage(n + 1, Fitted(ranked[n], max - a.used));
      SizePush(a.passages, p);
      TakenLast(limit, max, ranked, a.passages, p);
      forall i | 0 <= i < n ensures Taken(limit, max, ranked, a.passages + [p], i) {
        TakenStays(limit, max, ranked, a.passages, p, i);
      }
    }
  }

  /** Where the context ends, exactly, for every ranking. */
  lemma {:induction false} StopsExactly(limit: int, max: int, ranked: seq<string>, n: nat)
    requires n <= |ranked|
    ensures EndsThere(limit, max, ranked, Cited(limit, max, ranked, n), n)
  {
    if n > 0 {
      StopsExactly(limit, max, ranked, n - 1);
      CiteEnds(limit, max, ranked, Cited(limit, max, ranked, n - 1), n - 1);
    }
  }

  lemma SizeStep(ps: seq<Passage>, i: nat)
    requires i < |ps|
    ensures Size(ps[..i + 1]) == Size(ps[..i]) + |ps[i].content|
  {
    assert ps[..i + 1][..i] == ps[..i];
  }

  lemma SizeUpTo(ps: seq<Passage>, i: nat, j: nat)
    requires i < j < |ps|
    ensures Size(ps[..i + 1]) == Size(ps[..i]) + |ps[i].content|
    ensures Size(ps[..i + 1]) <= Size(ps[..j]) && Size(ps[..j]) + |ps[j].content| <= Size(ps)
  {
    SizeStep(ps, i);
    SizeStep(ps, j);
    SizeMonotone(ps, j + 1);
    SizeMonotone(ps[..j], i + 1);
    assert ps[..j][..i + 1] == ps[..i + 1];
  }

  /** At most one passage is cut, and what follows it has at most one character. */
  lemma CutOnce(limit: int, max: int, ranked: seq<string>, i: nat, j: nat)
    requires var ps := Cited(limit, max, ranked, |ranked|).passages;
             i < j < |ps| && |ps| <= |ranked| && ps[i].content != ranked[i]
    ensures var ps := Cited(limit, max, ranked, |ranked|).passages;
            |ps[j].content| <= 1 && ps[j].content == ranked[j]
  {
    CitedIsABeginning(limit, max, ranked, |ranked|);
    var ps := Cited(limit, max, ranked, |ranked|).passages;
    SizeUpTo(ps, i, j);
    assert CutTo(ps[i].content, ranked[i], max - Size(ps[..i])) by { assert Fits(ranked, ps, max, i); }
    assert Size(ps) <= max;
    assert !CutTo(ps[j].content, ranked[j], max - Size(ps[..j]));
    assert Fits(ranked, ps, max, j);
  }
}
