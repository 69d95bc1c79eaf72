/** Which texts can be parsed as a UUID, as far as colons are concerned: they may stand only where
    the prefixes "urn:" and "uuid:" bring them in. */
module UuidTexts {
  import opened Text

  /** All occurrences of `part` removed, from left to right. */
  function Remove(s: string, part: string): string
    requires part != ""
    decreases |s|
  {
    if s == "" then ""
    else if part <= s then Remove(s[|part|..], part)
    else [s[0]] + Remove(s[1..], part)
  }

  predicate IsBrace(c: char) { c == '{' || c == '}' }

  function StripLeft(s: string): string { if s != "" && IsBrace(s[0]) then StripLeft(s[1..]) else s }

  function StripRight(s: string): string {
    if s != "" && IsBrace(s[|s| - 1]) then StripRight(s[..|s| - 1]) else s
  }

  /** What parsing reads as a hexadecimal number. */
  function HexPart(text: string): string {
    Remove(StripRight(StripLeft(Remove(Remove(text, "urn:"), "uuid:"))), "-")
  }

  /** What parsing asks for at least: 32 characters, none of which is a colon. */
  predicate MayBeUuid(text: string) { |HexPart(text)| == 32 && ':' !in HexPart(text) }

  /** A digit followed by a colon. */
  predicate PairAt(s: string, p: int) { 0 < p < |s| && s[p] == ':' && IsDigit(s[p - 1]) }

  predicate HasPair(s: string) { exists p :: 0 < p < |s| && PairAt(s, p) }

  /** A part whose colons follow a letter, and which does not begin with one. */
  predicate Harmless(part: string) {
    part != "" && part[0] != ':' && (forall c :: c in part ==> !IsDigit(c)) && (':' in part ==> part[|part| - 1] == ':')
  }

  lemma PairInRest(s: string, p: int, n: nat)
    requires PairAt(s, p) && n < p
    ensures HasPair(s[n..])
  {
    assert PairAt(s[n..], p - n);
  }

  lemma PairStays(c: char, rest: string)
    requires HasPair(rest)
    ensures HasPair([c] + rest)
  {
    var p :| 0 < p < |rest| && PairAt(rest, p);
    assert PairAt([c] + rest, p + 1);
  }

  lemma PartHas(s: string, p: int, part: string)
    requires part <= s && 0 < p <= |part|
    ensures s[p - 1] in part
  {
    assert s[p - 1] == part[p - 1];
  }

  lemma PairHasColon(s: string)
    requires HasPair(s)
    ensures ':' in s
  {
  }

  /** A digit followed by a colon survives the removal. */
  lemma {:induction false} RemoveKeepsPair(s: string, part: string)
    requires Harmless(part) && HasPair(s)
    ensures HasPair(Remove(s, part))
    decreases |s|
  {
    var p :| 0 < p < |s| && PairAt(s, p);
    if part <= s {
      if p <= |part| {
        PartHas(s, p, part);
      }
      PairInRest(s, p, |part|);
      RemoveKeepsPair(s[|part|..], part);
    } else if p > 1 {
      PairInRest(s, p, 1);
      RemoveKeepsPair(s[1..], part);
      PairStays(s[0], Remove(s[1..], part));
    } else {
      assert s[1..][0] == ':' && !(part <= s[1..]);
      assert Remove(s[1..], part) == [':'] + Remove(s[1..][1..], part);
      assert PairAt(Remove(s, part), 1);
    }
  }

  lemma {:induction false} StripLeftKeepsPair(s: string)
    requires HasPair(s)
    ensures HasPair(StripLeft(s))
  {
    if IsBrace(s[0]) {
      var p :| 0 < p < |s| && PairAt(s, p);
      PairInRest(s, p, 1);
      StripLeftKeepsPair(s[1..]);
    }
  }

  lemma {:induction false} StripRightKeepsPair(s: string)
    requires HasPair(s)
    ensures HasPair(StripRight(s))
  {
    if IsBrace(s[|s| - 1]) {
      var p :| 0 < p < |s| && PairAt(s, p);
      assert PairAt(s[..|s| - 1], p);
      StripRightKeepsPair(s[..|s| - 1]);
    }
  }

  /** No text that parses as a UUID holds a digit followed by a colon. */
  lemma UuidHasNoPair(text: string)
    requires MayBeUuid(text)
    ensures !HasPair(text)
  {
    if HasPair(text) {
      assert "urn:"[3] == ':' && "uuid:"[4] == ':';
      RemoveKeepsPair(text, "urn:");
      RemoveKeepsPair(Remove(text, "urn:"), "uuid:");
      StripLeftKeepsPair(Remove(Remove(text, "urn:"), "uuid:"));
      StripRightKeepsPair(StripLeft(Remove(Remove(text, "urn:"), "uuid:")));
      RemoveKeepsPair(StripRight(StripLeft(Remove(Remove(text, "urn:"), "uuid:"))), "-");
      PairHasColon(HexPart(text));
    }
  }
}
