/** The evidence a summary is written from: tool calls of accepted attempts. */
module Evidence {
  import opened Basics
  import opened Events

  predicate ValidKey(k: StepKey) {
    !Blank(k.runId) && !Blank(k.planId) && !Blank(k.stepId) && k.attempt >= 1
  }

  predicate IsAccept(e: Event) { e.StepReflected? && e.action == Accept }

  /** Events whose identity the evidence builder reads, and rejects when malformed. */
  predicate ReadsKey(e: Event) { e.ToolCalled? || IsAccept(e) }

  predicate WellIdentified(log: Log) {
    forall i :: 0 <= i < |log| && ReadsKey(log[i]) ==> ValidKey(log[i].key)
  }

  function AcceptedKeys(log: Log): set<StepKey> {
    set i | 0 <= i < |log| && IsAccept(log[i]) :: log[i].key
  }

  /** Positions below `n` of the tool calls whose attempt is in `accepted`, in log order. */
  function Matches(log: Log, accepted: set<StepKey>, n: nat): (r: seq<nat>)
    requires n <= |log|
  {
    if n == 0 then []
    else
      var rest := Matches(log, accepted, n - 1);
      if log[n - 1].ToolCalled? && log[n - 1].key in accepted then rest + [n - 1] else rest
  }

  /** Positions of the evidence; an unidentified event makes the whole build fail. */
  function EvidenceOf(log: Log): Result<seq<nat>, string> {
    if WellIdentified(log) then Ok(Matches(log, AcceptedKeys(log), |log|))
    else Err("event identity field is invalid")
  }

  predicate InEvidence(log: Log, i: int) {
    0 <= i < |log| && log[i].ToolCalled? &&
    exists j :: 0 <= j < |log| && IsAccept(log[j]) && log[j].key == log[i].key
  }

  lemma {:induction false} MatchesExact(log: Log, accepted: set<StepKey>, n: nat, i: int)
    requires n <= |log|
    ensures i in Matches(log, accepted, n) <==>
            0 <= i < n && log[i].ToolCalled? && log[i].key in accepted
  {
    if n > 0 {
      MatchesExact(log, accepted, n - 1, i);
    }
  }

  /** Positions come out strictly increasing: each call once, in log order. */
  lemma {:induction false} MatchesOrdered(log: Log, accepted: set<StepKey>, n: nat)
    requires n <= |log|
    ensures forall a, b :: 0 <= a < b < |Matches(log, accepted, n)| ==>
              Matches(log, accepted, n)[a] < Matches(log, accepted, n)[b]
  {
    if n > 0 {
      MatchesOrdered(log, accepted, n - 1);
      var rest := Matches(log, accepted, n - 1);
      forall a | 0 <= a < |rest|
        ensures rest[a] < n - 1
      {
        MatchesExact(log, accepted, n - 1, rest[a]);
        assert rest[a] in rest;
      }
    }
  }

  /** A tool call is evidence iff an accept reflection with its own key is somewhere in the log. */
  lemma EvidenceExact(log: Log, i: int)
    requires WellIdentified(log)
    ensures EvidenceOf(log).Ok?
    ensures i in EvidenceOf(log).value <==> InEvidence(log, i)
  {
    MatchesExact(log, AcceptedKeys(log), |log|, i);
    if 0 <= i < |log| && log[i].ToolCalled? && log[i].key in AcceptedKeys(log) {
      var j :| 0 <= j < |log| && IsAccept(log[j]) && log[j].key == log[i].key;
    }
  }

  /** Building the evidence raises exactly if some tool call or accept reflection lacks a part of its
      identity: its run, its plan, its step or an attempt. */
  lemma EvidenceRaisesExactly(log: Log)
    ensures EvidenceOf(log).Err? <==>
              exists i :: 0 <= i < |log| &&
                          (log[i].ToolCalled? || (log[i].StepReflected? && log[i].action == Accept)) &&
                          (Blank(log[i].key.runId) || Blank(log[i].key.planId) || Blank(log[i].key.stepId) ||
                           log[i].key.attempt == 0)
  {
    if EvidenceOf(log).Err? {
      var i :| 0 <= i < |log| && ReadsKey(log[i]) && !ValidKey(log[i].key);
    }
  }

  /** Appending events never removes evidence. */
  lemma EvidenceGrows(log: Log, more: Log, i: int)
    requires WellIdentified(log + more)
    requires EvidenceOf(log).Ok? && i in EvidenceOf(log).value
    ensures EvidenceOf(log + more).Ok? && i in EvidenceOf(log + more).value
  {
    EvidenceExact(log, i);
    var j :| 0 <= j < |log| && IsAccept(log[j]) && log[j].key == log[i].key;
    assert (log + more)[j] == log[j] && (log + more)[i] == log[i];
    EvidenceExact(log + more, i);
  }

  /** The loop that collects accepted attempts. */
  method AcceptedAttempts(log: Log) returns (r: Result<set<StepKey>, string>)
    ensures r.Ok? <==> forall i :: 0 <= i < |log| && IsAccept(log[i]) ==> ValidKey(log[i].key)
    ensures r.Ok? ==> r.value == AcceptedKeys(log)
  {
    var accepted: set<StepKey> := {};
    for n := 0 to |log|
      invariant forall i :: 0 <= i < n && IsAccept(log[i]) ==> ValidKey(log[i].key)
      invariant accepted == set i | 0 <= i < n && IsAccept(log[i]) :: log[i].key
    {
      if log[n].StepReflected? && log[n].action == Accept {
        if !ValidKey(log[n].key) {
          return Err("event identity field is invalid");
        }
        accepted := accepted + {log[n].key};
      }
    }
    return Ok(accepted);
  }

  /** The loop that keeps the tool calls of accepted attempts. */
  method AcceptedToolEvents(log: Log) returns (r: Result<seq<nat>, string>)
    ensures r.Ok? <==> EvidenceOf(log).Ok?
    ensures r.Ok? ==> r == EvidenceOf(log)
  {
    var accepted := AcceptedAttempts(log);
    if accepted.Err? {
      return Err("event identity field is invalid");
    }
    var matched: seq<nat> := [];
    for n := 0 to |log|
      invariant forall i :: 0 <= i < n && log[i].ToolCalled? ==> ValidKey(log[i].key)
      invariant matched == Matches(log, accepted.value, n)
    {
      if log[n].ToolCalled? {
        if !ValidKey(log[n].key) {
          return Err("event identity field is invalid");
        }
        if log[n].key in accepted.value {
          matched := matched + [n];
        }
      }
    }
    return Ok(matched);
  }
}
