/**
 * The two interactive reviews of the Jira drafts, with the operator's answers
 * as a scripted sequence of input lines and the clock as a parameter:
 *
 *  - tools/feedback_review.py `run`: per draft, prompt until the answer is
 *    A(pprove), R(eject) or S(kip all); approving or rejecting appends one
 *    ledger entry, skipping ends the whole review;
 *  - agents/feedback_review.py `run`: one answer per draft, y/n append an
 *    entry (after a second line with an optional reason), s or anything
 *    unrecognised passes over the draft, q ends the review.
 *
 * When the script runs out while the review waits for input, `input()`
 * raises: the review ends without a result, and the entries already
 * appended stay in the ledger.
 */
module FeedbackReview {
  import opened JsonValues
  import opened Feedback

  /** The timestamp of the n-th entry written in a session. */
  type Clock = nat -> string

  /** `input().strip().lower()`. */
  function Answer(line: string): string {
    Lower(Strip(line))
  }

  // ---------------------------------------------------------------------
  // tools/feedback_review.py: Approve / Reject / Skip all
  // ---------------------------------------------------------------------

  datatype Decision = Approve | Reject | SkipAll

  /** The decision an answer stands for; None for an answer that re-prompts. */
  function ToolsChoice(line: string): Option<Decision> {
    var c := Answer(line);
    if c == "a" || c == "approve" then Some(Approve)
    else if c == "r" || c == "reject" then Some(Reject)
    else if c == "s" || c == "skip" || c == "skip all" then Some(SkipAll)
    else None
  }

  /** The prompt loop for one draft: the first recognised answer and the lines after it; None when the script runs out. */
  function ReadDecision(script: seq<string>): (r: Option<(Decision, seq<string>)>)
    ensures r.Some? ==> |r.value.1| < |script| && r.value.1 == script[|script| - |r.value.1|..]
    decreases |script|
  {
    if script == [] then None
    else if ToolsChoice(script[0]).Some? then Some((ToolsChoice(script[0]).value, script[1..]))
    else ReadDecision(script[1..])
  }

  /** `d.get("summary") or "(no summary)"`. */
  function DraftSummary(d: Obj): Json {
    Or(Get(d, "summary"), JStr("(no summary)"))
  }

  /** `d.get("service_name") or d.get("cluster", {}).get("service_name") or "(unknown service)"`. */
  function DraftService(d: Obj): Json {
    Or(Or(Get(d, "service_name"), Field(GetOr(d, "cluster", JObj(map[])), "service_name")), JStr("(unknown service)"))
  }

  /** `d.get("cluster", {}).get("triage", {}).get("label")`. */
  function DraftLabel(d: Obj): Json {
    Field(GetOr(AsObj(GetOr(d, "cluster", JObj(map[]))), "triage", JObj(map[])), "label")
  }

  /** The ledger entry for an approved or rejected draft; only a rejection records the label. */
  function ToolsEntry(d: Obj, approve: bool, stamp: string): Obj {
    var common := map[
      "timestamp" := JStr(stamp),
      "signature" := Get(d, "signature"),
      "decision" := JStr(if approve then "approved" else "rejected"),
      "source" := JStr("jira_review"),
      "summary" := DraftSummary(d),
      "service" := DraftService(d)];
    if approve then common else common["label" := DraftLabel(d)]
  }

  /** What a review session did: the entries appended, the indices approved and rejected, and how it ended. */
  datatype ToolsSession = ToolsSession(entries: seq<Obj>, approved: seq<Json>, rejected: seq<Json>, skippedAll: bool, eof: bool)

  /** The review of the remaining drafts, n entries having been written already. */
  function ToolsReviewFrom(drafts: seq<Obj>, script: seq<string>, clock: Clock, n: nat): ToolsSession
    decreases |drafts|
  {
    if drafts == [] then ToolsSession([], [], [], false, false)
    else
      match ReadDecision(script)
      case None => ToolsSession([], [], [], false, true)
      case Some((decision, rest)) =>
        var d := drafts[0];
        match decision
        case SkipAll => ToolsSession([], [], [], true, false)
        case Approve =>
          var s := ToolsReviewFrom(drafts[1..], rest, clock, n + 1);
          s.(entries := [ToolsEntry(d, true, clock(n))] + s.entries, approved := [Get(d, "idx")] + s.approved)
        case Reject =>
          var s := ToolsReviewFrom(drafts[1..], rest, clock, n + 1);
          s.(entries := [ToolsEntry(d, false, clock(n))] + s.entries, rejected := [Get(d, "idx")] + s.rejected)
  }

  /** What `run` returns; None when `input()` raised. */
  function ToolsResult(drafts: seq<Obj>, s: ToolsSession): Option<Obj> {
    if drafts == [] then Some(map["reviewed" := JInt(0), "written_feedback" := JInt(0)])
    else if s.eof then None
    else Some(map["approved" := JInt(|s.approved|), "rejected" := JInt(|s.rejected|), "skipped_all" := JBool(s.skippedAll)])
  }

  /** A session after some entries, approvals and rejections already made. */
  function After(entries: seq<Obj>, approved: seq<Json>, rejected: seq<Json>, s: ToolsSession): ToolsSession {
    s.(entries := entries + s.entries, approved := approved + s.approved, rejected := rejected + s.rejected)
  }

  lemma AfterAfter(e1: seq<Obj>, a1: seq<Json>, r1: seq<Json>, e2: seq<Obj>, a2: seq<Json>, r2: seq<Json>, s: ToolsSession)
    ensures After(e1, a1, r1, After(e2, a2, r2, s)) == After(e1 + e2, a1 + a2, r1 + r2, s)
  {
    assert e1 + (e2 + s.entries) == (e1 + e2) + s.entries;
    assert a1 + (a2 + s.approved) == (a1 + a2) + s.approved;
    assert r1 + (r2 + s.rejected) == (r1 + r2) + s.rejected;
  }

  /** One draft of the review, once its decision has been read. */
  lemma ToolsStep(ds: seq<Obj>, script: seq<string>, clock: Clock, n: nat)
    requires ds != [] && ReadDecision(script).Some?
    ensures var (dec, rest) := ReadDecision(script).value;
      ToolsReviewFrom(ds, script, clock, n) ==
        match dec
        case SkipAll => ToolsSession([], [], [], true, false)
        case Approve => After([ToolsEntry(ds[0], true, clock(n))], [Get(ds[0], "idx")], [], ToolsReviewFrom(ds[1..], rest, clock, n + 1))
        case Reject => After([ToolsEntry(ds[0], false, clock(n))], [], [Get(ds[0], "idx")], ToolsReviewFrom(ds[1..], rest, clock, n + 1))
  {
    var (dec, rest) := ReadDecision(script).value;
    var s := ToolsReviewFrom(ds[1..], rest, clock, n + 1);
    assert [] + s.approved == s.approved && [] + s.rejected == s.rejected;
  }

  /** The loop's invariant is kept when draft i is approved or rejected. */
  lemma ToolsAdvance(drafts: seq<Obj>, script: seq<string>, clock: Clock, i: nat, start: nat, pos: nat, n: nat,
                     written: seq<Obj>, approved: seq<Json>, rejected: seq<Json>, dec: Decision)
    requires i < |drafts| && start <= pos <= |script| && dec != SkipAll
    requires ReadDecision(script[start..]) == Some((dec, script[pos..]))
    ensures var e := ToolsEntry(drafts[i], dec == Approve, clock(n));
      var idx := Get(drafts[i], "idx");
      After(written, approved, rejected, ToolsReviewFrom(drafts[i..], script[start..], clock, n)) ==
        if dec == Approve
        then After(written + [e], approved + [idx], rejected, ToolsReviewFrom(drafts[i + 1..], script[pos..], clock, n + 1))
        else After(written + [e], approved, rejected + [idx], ToolsReviewFrom(drafts[i + 1..], script[pos..], clock, n + 1))
  {
    assert drafts[i..][0] == drafts[i] && drafts[i..][1..] == drafts[i + 1..];
    ToolsStep(drafts[i..], script[start..], clock, n);
    var e := ToolsEntry(drafts[i], dec == Approve, clock(n));
    var rest := ToolsReviewFrom(drafts[i + 1..], script[pos..], clock, n + 1);
    if dec == Approve {
      AfterAfter(written, approved, rejected, [e], [Get(drafts[i], "idx")], [], rest);
    } else {
      AfterAfter(written, approved, rejected, [e], [], [Get(drafts[i], "idx")], rest);
    }
  }

  /** The review ends when draft i is answered with skip-all. */
  lemma ToolsStop(drafts: seq<Obj>, script: seq<string>, clock: Clock, i: nat, start: nat, pos: nat, n: nat)
    requires i < |drafts| && start <= pos <= |script|
    requires ReadDecision(script[start..]) == Some((SkipAll, script[pos..]))
    ensures ToolsReviewFrom(drafts[i..], script[start..], clock, n) == ToolsSession([], [], [], true, false)
  {
    ToolsStep(drafts[i..], script[start..], clock, n);
  }

  /** The review ends without a result when the script runs out before draft i is decided. */
  lemma ToolsEof(drafts: seq<Obj>, script: seq<string>, clock: Clock, i: nat, start: nat, n: nat)
    requires i < |drafts| && start <= |script|
    requires ReadDecision(script[start..]) == None
    ensures ToolsReviewFrom(drafts[i..], script[start..], clock, n) == ToolsSession([], [], [], false, true)
  {
  }

  lemma AfterQuiet(e: seq<Obj>, a: seq<Json>, r: seq<Json>, s: ToolsSession)
    requires s.entries == [] && s.approved == [] && s.rejected == []
    ensures After(e, a, r, s) == ToolsSession(e, a, r, s.skippedAll, s.eof)
  {
    assert e + [] == e && a + [] == a && r + [] == r;
  }

  lemma AfterNothing(s: ToolsSession)
    ensures After([], [], [], s) == s
  {
    assert [] + s.entries == s.entries && [] + s.approved == s.approved && [] + s.rejected == s.rejected;
  }

  /** The entries as the JSON list holds them. */
  function Wrap(entries: seq<Obj>): (r: seq<Json>)
    ensures |r| == |entries|
    decreases |entries|
  {
    if entries == [] then [] else Wrap(entries[..|entries| - 1]) + [JObj(entries[|entries| - 1])]
  }

  lemma WrapSnoc(entries: seq<Obj>, e: Obj)
    ensures Wrap(entries + [e]) == Wrap(entries) + [JObj(e)]
  {
    assert (entries + [e])[..|entries|] == entries;
  }

  /** The `while True` prompt loop for one draft, reading from line `pos` on: the decision and the next line to read. */
  method Prompt(script: seq<string>, pos: nat) returns (decision: Option<Decision>, next: nat)
    requires pos <= |script|
    ensures pos <= next <= |script|
    ensures decision.None? ==> ReadDecision(script[pos..]) == None
    ensures decision.Some? ==> ReadDecision(script[pos..]) == Some((decision.value, script[next..]))
  {
    decision := None;
    next := pos;
    while decision.None? && next < |script|
      invariant pos <= next <= |script|
      invariant decision.None? ==> ReadDecision(script[pos..]) == ReadDecision(script[next..])
      invariant decision.Some? ==> ReadDecision(script[pos..]) == Some((decision.value, script[next..]))
      decreases |script| - next, if decision.None? then 1 else 0
    {
      assert script[next..][1..] == script[next + 1..];
      decision := ToolsChoice(script[next]);
      next := next + 1;
    }
    if decision.None? {
      assert script[next..] == [];
    }
  }

  /**
   * What holds between drafts: the entries written so far sit at the end of
   * the ledger, and the rest of the review is still ahead.
   */
  ghost predicate ToolsInv(drafts: seq<Obj>, script: seq<string>, clock: Clock, ledger: Ledger, base: seq<Json>,
                           i: nat, pos: nat, written: seq<Obj>, approved: seq<Json>, rejected: seq<Json>)
    reads ledger
  {
    i <= |drafts| && pos <= |script|
    && ledger.Valid() && ledger.Entries() == base + Wrap(written)
    && After(written, approved, rejected, ToolsReviewFrom(drafts[i..], script[pos..], clock, |written|))
         == ToolsReviewFrom(drafts, script, clock, 0)
  }

  /** One draft: prompt until a decision is read, and append the entry for an approval or a rejection. */
  method ReviewDraft(drafts: seq<Obj>, script: seq<string>, clock: Clock, ledger: Ledger, ghost base: seq<Json>,
                     i: nat, pos: nat, n: nat, ghost written: seq<Obj>, approved: seq<Json>, rejected: seq<Json>)
    returns (decision: Option<Decision>, next: nat, approved': seq<Json>, rejected': seq<Json>, ghost written': seq<Obj>)
    requires i < |drafts| && n == |written|
    requires ToolsInv(drafts, script, clock, ledger, base, i, pos, written, approved, rejected)
    modifies ledger
    ensures decision.Some? && decision.value != SkipAll ==>
      ToolsInv(drafts, script, clock, ledger, base, i + 1, next, written', approved', rejected') && |written'| == n + 1
    ensures decision.None? ==>
      ledger.Valid() && ledger.Entries() == base + Wrap(written)
      && ToolsReviewFrom(drafts, script, clock, 0) == ToolsSession(written, approved, rejected, false, true)
    ensures decision == Some(SkipAll) ==>
      ledger.Valid() && ledger.Entries() == base + Wrap(written) && approved' == approved && rejected' == rejected
      && ToolsReviewFrom(drafts, script, clock, 0) == ToolsSession(written, approved, rejected, true, false)
  {
    var d := drafts[i];
    decision, next := Prompt(script, pos);
    approved', rejected', written' := approved, rejected, written;
    if decision.None? {
      ToolsEof(drafts, script, clock, i, pos, n);
      AfterQuiet(written, approved, rejected, ToolsSession([], [], [], false, true));
      return;
    }
    var dec := decision.value;
    if dec == SkipAll {
      ToolsStop(drafts, script, clock, i, pos, next, n);
      AfterQuiet(written, approved, rejected, ToolsSession([], [], [], true, false));
      return;
    }
    ToolsAdvance(drafts, script, clock, i, pos, next, n, written, approved, rejected, dec);
    var entry := ToolsEntry(d, dec == Approve, clock(n));
    if dec == Approve {
      approved' := approved + [Get(d, "idx")];
    } else {
      rejected' := rejected + [Get(d, "idx")];
    }
    var ok := ledger.Append(JObj(entry));
    WrapSnoc(written, entry);
    written' := written + [entry];
  }

  /** `run` of tools/feedback_review.py, appending to the given ledger. */
  method ToolsReview(drafts: seq<Obj>, script: seq<string>, clock: Clock, ledger: Ledger) returns (result: Option<Obj>)
    requires ledger.Valid()
    modifies ledger
    ensures var s := ToolsReviewFrom(drafts, script, clock, 0);
      result == ToolsResult(drafts, s)
      && ledger.Valid() && ledger.Entries() == old(ledger.Entries()) + Wrap(s.entries)
  {
    if |drafts| == 0 {
      return Some(map["reviewed" := JInt(0), "written_feedback" := JInt(0)]);
    }
    var approved: seq<Json> := [];
    var rejected: seq<Json> := [];
    var skippedAll := false;
    ghost var base := ledger.Entries();
    ghost var written: seq<Obj> := [];
    assert drafts[0..] == drafts && script[0..] == script;
    AfterNothing(ToolsReviewFrom(drafts, script, clock, 0));
    var n := 0;
    var pos := 0;
    var i := 0;
    while i < |drafts|
      invariant ToolsInv(drafts, script, clock, ledger, base, i, pos, written, approved, rejected)
      invariant n == |written|
      decreases |drafts| - i
    {
      var decision;
      decision, pos, approved, rejected, written := ReviewDraft(drafts, script, clock, ledger, base, i, pos, n, written, approved, rejected);
      if decision.None? {
        return None;
      }
      if decision.value == SkipAll {
        skippedAll := true;
        break;
      }
      n := n + 1;
      i := i + 1;
    }
    if !skippedAll {
      assert drafts[i..] == [];
      AfterQuiet(written, approved, rejected, ToolsSession([], [], [], false, false));
    }
    result := Some(map["approved" := JInt(|approved|), "rejected" := JInt(|rejected|), "skipped_all" := JBool(skippedAll)]);
  }

  // ---------------------------------------------------------------------
  // agents/feedback_review.py: y / n / s / q
  // ---------------------------------------------------------------------

  /** The ledger entry of agents/feedback_review.py; an empty reason is stored as None. */
  function AgentsEntry(d: Obj, approve: bool, reason: string, stamp: string): Obj {
    map[
      "timestamp" := JStr(stamp),
      "signature" := Get(d, "signature"),
      "idx" := Get(d, "idx"),
      "service" := Get(d, "service"),
      "java_class" := Get(d, "java_class"),
      "triage" := GetOr(d, "triage", JObj(map[])),
      "decision" := JStr(if approve then "approved" else "rejected"),
      "reason" := if reason == "" then JNull else JStr(reason)]
  }

  datatype AgentsSession = AgentsSession(entries: seq<Obj>, reviewed: nat, written: nat, eof: bool)

  function AgentsReviewFrom(drafts: seq<Obj>, script: seq<string>, clock: Clock, n: nat): AgentsSession
    decreases |drafts|
  {
    if drafts == [] then AgentsSession([], 0, 0, false)
    else if script == [] then AgentsSession([], 0, 0, true)
    else
      var c := Answer(script[0]);
      if c == "q" then AgentsSession([], 0, 0, false)
      else if c != "y" && c != "n" then AgentsReviewFrom(drafts[1..], script[1..], clock, n)
      else if |script| == 1 then AgentsSession([], 1, 0, true)
      else
        var s := AgentsReviewFrom(drafts[1..], script[2..], clock, n + 1);
        s.(entries := [AgentsEntry(drafts[0], c == "y", Strip(script[1]), clock(n))] + s.entries,
           reviewed := s.reviewed + 1, written := s.written + 1)
  }

  function AgentsResult(s: AgentsSession): Option<Obj> {
    if s.eof then None
    else Some(map["reviewed" := JInt(s.reviewed), "written_feedback" := JInt(s.written)])
  }

  /** A session after some entries were already written, each of them after one reviewed draft. */
  function AgentsAfter(entries: seq<Obj>, s: AgentsSession): AgentsSession {
    s.(entries := entries + s.entries, reviewed := |entries| + s.reviewed, written := |entries| + s.written)
  }

  /** How draft i ended the review or let it go on. */
  datatype Outcome = Quit | Pass | Record | Eof

  /**
   * What holds between drafts: the entries written so far sit at the end of
   * the ledger, and the rest of the review is still ahead.
   */
  ghost predicate AgentsInv(drafts: seq<Obj>, script: seq<string>, clock: Clock, ledger: Ledger, base: seq<Json>,
                            i: nat, pos: nat, entries: seq<Obj>)
    reads ledger
  {
    i <= |drafts| && pos <= |script|
    && ledger.Valid() && ledger.Entries() == base + Wrap(entries)
    && AgentsAfter(entries, AgentsReviewFrom(drafts[i..], script[pos..], clock, |entries|))
         == AgentsReviewFrom(drafts, script, clock, 0)
  }

  /** The review of draft i, from line pos on, when the script has a line left. */
  lemma AgentsStep(drafts: seq<Obj>, script: seq<string>, clock: Clock, i: nat, pos: nat, n: nat)
    requires i < |drafts| && pos < |script|
    ensures var c := Answer(script[pos]);
      AgentsReviewFrom(drafts[i..], script[pos..], clock, n) ==
        if c == "q" then AgentsSession([], 0, 0, false)
        else if c != "y" && c != "n" then AgentsReviewFrom(drafts[i + 1..], script[pos + 1..], clock, n)
        else if pos + 1 == |script| then AgentsSession([], 1, 0, true)
        else
          var s := AgentsReviewFrom(drafts[i + 1..], script[pos + 2..], clock, n + 1);
          s.(entries := [AgentsEntry(drafts[i], c == "y", Strip(script[pos + 1]), clock(n))] + s.entries,
             reviewed := s.reviewed + 1, written := s.written + 1)
  {
    assert drafts[i..][0] == drafts[i] && drafts[i..][1..] == drafts[i + 1..];
    assert script[pos..][0] == script[pos] && script[pos..][1..] == script[pos + 1..];
    if pos + 1 < |script| {
      assert script[pos..][1] == script[pos + 1] && script[pos..][2..] == script[pos + 2..];
    }
  }

  lemma AgentsAfterOne(entries: seq<Obj>, e: Obj, s: AgentsSession)
    ensures AgentsAfter(entries, s.(entries := [e] + s.entries, reviewed := s.reviewed + 1, written := s.written + 1))
         == AgentsAfter(entries + [e], s)
  {
    assert entries + ([e] + s.entries) == (entries + [e]) + s.entries;
  }

  lemma AgentsAfterQuiet(entries: seq<Obj>, s: AgentsSession)
    requires s.entries == []
    ensures AgentsAfter(entries, s).entries == entries
  {
    assert entries + [] == entries;
  }

  /** One draft: read the answer, and for y or n the reason, and append the entry. */
  method AgentsDraft(drafts: seq<Obj>, script: seq<string>, clock: Clock, ledger: Ledger, ghost base: seq<Json>,
                     i: nat, pos: nat, n: nat, ghost entries: seq<Obj>)
    returns (outcome: Outcome, next: nat, ghost entries': seq<Obj>)
    requires i < |drafts| && n == |entries|
    requires AgentsInv(drafts, script, clock, ledger, base, i, pos, entries)
    modifies ledger
    ensures outcome == Pass ==> AgentsInv(drafts, script, clock, ledger, base, i + 1, next, entries') && entries' == entries
    ensures outcome == Record ==> AgentsInv(drafts, script, clock, ledger, base, i + 1, next, entries') && |entries'| == n + 1
    ensures outcome == Quit ==>
      ledger.Valid() && ledger.Entries() == base + Wrap(entries)
      && AgentsReviewFrom(drafts, script, clock, 0) == AgentsSession(entries, n, n, false)
    ensures outcome == Eof ==>
      ledger.Valid() && ledger.Entries() == base + Wrap(entries)
      && AgentsReviewFrom(drafts, script, clock, 0).eof && AgentsReviewFrom(drafts, script, clock, 0).entries == entries
  {
    entries' := entries;
    next := pos;
    if pos == |script| {
      AgentsAfterQuiet(entries, AgentsSession([], 0, 0, true));
      return Eof, next, entries';
    }
    AgentsStep(drafts, script, clock, i, pos, n);
    var choice := Answer(script[pos]);
    next := pos + 1;
    if choice == "q" {
      AgentsAfterQuiet(entries, AgentsSession([], 0, 0, false));
      return Quit, next, entries';
    }
    if choice == "s" {
      return Pass, next, entries';
    }
    if choice != "y" && choice != "n" {
      return Pass, next, entries';
    }
    if next == |script| {
      AgentsAfterQuiet(entries, AgentsSession([], 1, 0, true));
      return Eof, next, entries';
    }
    var reason := Strip(script[next]);
    next := next + 1;
    var entry := AgentsEntry(drafts[i], choice == "y", reason, clock(n));
    var ok := ledger.Append(JObj(entry));
    AgentsAfterOne(entries, entry, AgentsReviewFrom(drafts[i + 1..], script[next..], clock, n + 1));
    WrapSnoc(entries, entry);
    entries' := entries + [entry];
    outcome := Record;
  }

  /** `run` of agents/feedback_review.py, appending to the given ledger. */
  method AgentsReview(drafts: seq<Obj>, script: seq<string>, clock: Clock, ledger: Ledger) returns (result: Option<Obj>)
    requires ledger.Valid()
    modifies ledger
    ensures var s := AgentsReviewFrom(drafts, script, clock, 0);
      result == AgentsResult(s)
      && ledger.Valid() && ledger.Entries() == old(ledger.Entries()) + Wrap(s.entries)
  {
    if |drafts| == 0 {
      return Some(map["reviewed" := JInt(0), "written_feedback" := JInt(0)]);
    }
    var reviewed := 0;
    var written := 0;
    ghost var base := ledger.Entries();
    ghost var entries: seq<Obj> := [];
    assert drafts[0..] == drafts && script[0..] == script;
    AgentsAfterNothing(AgentsReviewFrom(drafts, script, clock, 0));
    var pos := 0;
    var i := 0;
    while i < |drafts|
      invariant AgentsInv(drafts, script, clock, ledger, base, i, pos, entries)
      invariant written == |entries| && reviewed == written
      decreases |drafts| - i
    {
      var outcome;
      outcome, pos, entries := AgentsDraft(drafts, script, clock, ledger, base, i, pos, written, entries);
      if outcome == Eof {
        return None;
      }
      if outcome == Quit {
        break;
      }
      if outcome == Record {
        reviewed := reviewed + 1;
        written := written + 1;
      }
      i := i + 1;
    }
    if i == |drafts| {
      assert drafts[i..] == [];
      AgentsAfterQuiet(entries, AgentsSession([], 0, 0, false));
    }
    result := Some(map["reviewed" := JInt(reviewed), "written_feedback" := JInt(written)]);
  }

  lemma AgentsAfterNothing(s: AgentsSession)
    ensures AgentsAfter([], s) == s
  {
    assert [] + s.entries == s.entries;
  }
}
