/**
 * What the two reviews promise: which answers the prompt accepts, which
 * entries a session appends and in which order, how the counts it returns
 * relate to them, and two scripted sessions worked through.
 */
module FeedbackReviewProperties {
  import opened JsonValues
  import opened FeedbackReview

  /** A word typed without surrounding blanks or capitals is read as it is. */
  lemma PlainWord(w: string)
    requires w != [] && !IsSpace(w[0]) && !IsSpace(w[|w| - 1])
    requires forall i :: 0 <= i < |w| ==> !('A' <= w[i] <= 'Z')
    ensures Answer(w) == w
  {
    assert TrimStart(w) == w;
    assert TrimEnd(w) == w;
    LowerAt(w);
    assert Lower(w) == w;
  }

  // ---------------------------------------------------------------------
  // tools/feedback_review.py
  // ---------------------------------------------------------------------

  /**
   * The prompt loop returns the first recognised answer and goes on after
   * it; every answer before it was unrecognised (and re-prompted). It runs
   * out of input exactly when no line is recognised.
   */
  lemma {:induction false} ReadDecisionFirst(script: seq<string>)
    ensures RunsOutIff(script) && FirstRecognised(script)
    decreases |script|
  {
    if script != [] && ToolsChoice(script[0]).None? {
      ReadDecisionFirst(script[1..]);
      RunsOutSkip(script);
      FirstRecognisedSkip(script);
    }
  }

  /** The prompt loop runs out of input exactly when no line is recognised. */
  predicate RunsOutIff(script: seq<string>) {
    ReadDecision(script).None? <==> forall i :: 0 <= i < |script| ==> ToolsChoice(script[i]).None?
  }

  /** A decision is read from the first recognised line, and every line before it was unrecognised. */
  predicate FirstRecognised(script: seq<string>) {
    ReadDecision(script).Some? ==>
      var (dec, rest) := ReadDecision(script).value;
      var j := |script| - |rest| - 1;
      0 <= j && ToolsChoice(script[j]) == Some(dec) && forall i :: 0 <= i < j ==> ToolsChoice(script[i]).None?
  }

  /** An unrecognised first line is skipped: the loop runs out on the script when it runs out on the rest. */
  lemma RunsOutSkip(script: seq<string>)
    requires script != [] && ToolsChoice(script[0]).None?
    requires RunsOutIff(script[1..])
    ensures RunsOutIff(script)
  {
    assert ReadDecision(script) == ReadDecision(script[1..]);
    UnrecognisedCons(script);
  }

  /** No line of a script is recognised when its first line is not and no line of the rest is. */
  lemma UnrecognisedCons(script: seq<string>)
    requires script != []
    ensures (forall i :: 0 <= i < |script| ==> ToolsChoice(script[i]).None?)
        <==> ToolsChoice(script[0]).None? && forall i :: 0 <= i < |script[1..]| ==> ToolsChoice(script[1..][i]).None?
  {
    var tail := script[1..];
    if forall i :: 0 <= i < |script| ==> ToolsChoice(script[i]).None? {
      forall i | 0 <= i < |tail|
        ensures ToolsChoice(tail[i]).None?
      {
        assert tail[i] == script[i + 1];
      }
    }
    if ToolsChoice(script[0]).None? && forall i :: 0 <= i < |tail| ==> ToolsChoice(tail[i]).None? {
      forall i | 0 <= i < |script|
        ensures ToolsChoice(script[i]).None?
      {
        if i > 0 {
          assert script[i] == tail[i - 1];
        }
      }
    }
  }

  /** An unrecognised first line is skipped: the decision read is the one read from the rest, one line further on. */
  lemma FirstRecognisedSkip(script: seq<string>)
    requires script != [] && ToolsChoice(script[0]).None?
    requires FirstRecognised(script[1..])
    ensures FirstRecognised(script)
  {
    var tail := script[1..];
    assert ReadDecision(script) == ReadDecision(tail);
    if ReadDecision(tail).Some? {
      var (dec, rest) := ReadDecision(tail).value;
      var j := |tail| - |rest| - 1;
      assert script[j + 1] == tail[j];
      forall i | 0 <= i < j + 1
        ensures ToolsChoice(script[i]).None?
      {
        if i > 0 {
          assert script[i] == tail[i - 1];
        }
      }
    }
  }

  /** The fields of a tools entry: timestamp, signature and decision; only a rejection carries the label. */
  lemma ToolsEntryFields(d: Obj, approve: bool, stamp: string)
    ensures var e := ToolsEntry(d, approve, stamp);
      "timestamp" in e && e["timestamp"] == JStr(stamp)
      && "signature" in e && e["signature"] == Get(d, "signature")
      && "decision" in e && e["decision"] == JStr(if approve then "approved" else "rejected")
      && "source" in e && e["source"] == JStr("jira_review")
      && ("label" in e <==> !approve)
  {
  }

  /** The entry a session writes for a draft it approved or rejected, with the given timestamp. */
  predicate ToolsEntryOf(e: Obj, d: Obj, stamp: string) {
    e == ToolsEntry(d, true, stamp) || e == ToolsEntry(d, false, stamp)
  }

  /** The number of approvals among the entries. */
  function Approvals(entries: seq<Obj>): nat
    decreases |entries|
  {
    if entries == [] then 0
    else (if Get(entries[0], "decision") == JStr("approved") then 1 else 0) + Approvals(entries[1..])
  }

  /** What an approved or rejected first draft adds to the rest of the session. */
  lemma ToolsCons(drafts: seq<Obj>, script: seq<string>, clock: Clock, n: nat)
    requires drafts != [] && ReadDecision(script).Some? && ReadDecision(script).value.0 != SkipAll
    ensures var (dec, rest) := ReadDecision(script).value;
      var s := ToolsReviewFrom(drafts, script, clock, n);
      var s' := ToolsReviewFrom(drafts[1..], rest, clock, n + 1);
      s.entries == [ToolsEntry(drafts[0], dec == Approve, clock(n))] + s'.entries
      && s.approved == (if dec == Approve then [Get(drafts[0], "idx")] else []) + s'.approved
      && s.rejected == (if dec == Approve then [] else [Get(drafts[0], "idx")]) + s'.rejected
      && s.skippedAll == s'.skippedAll && s.eof == s'.eof
  {
    var (dec, rest) := ReadDecision(script).value;
    var s' := ToolsReviewFrom(drafts[1..], rest, clock, n + 1);
    if dec == Approve {
      assert [] + s'.rejected == s'.rejected;
    } else {
      assert [] + s'.approved == s'.approved;
    }
  }

  /**
   * A tools session decides the drafts in order until it is skipped or runs
   * out of input, and decides every draft when neither happened; the
   * approved and rejected lists together have one item per entry.
   */
  lemma {:induction false} ToolsSessionCounts(drafts: seq<Obj>, script: seq<string>, clock: Clock, n: nat)
    ensures var s := ToolsReviewFrom(drafts, script, clock, n);
      |s.entries| == |s.approved| + |s.rejected| && |s.entries| <= |drafts|
      && !(s.skippedAll && s.eof)
      && (!s.skippedAll && !s.eof ==> |s.entries| == |drafts|)
    decreases |drafts|
  {
    if drafts != [] && ReadDecision(script).Some? && ReadDecision(script).value.0 != SkipAll {
      ToolsCons(drafts, script, clock, n);
      ToolsSessionCounts(drafts[1..], ReadDecision(script).value.1, clock, n + 1);
    }
  }

  /** Entry k is draft k's, stamped with timestamp n + k. */
  predicate EntriesFrom(entries: seq<Obj>, drafts: seq<Obj>, clock: Clock, n: nat) {
    |entries| <= |drafts| && forall k :: 0 <= k < |entries| ==> ToolsEntryOf(entries[k], drafts[k], clock(n + k))
  }

  lemma EntriesFromCons(e: Obj, entries: seq<Obj>, drafts: seq<Obj>, clock: Clock, n: nat)
    requires drafts != [] && ToolsEntryOf(e, drafts[0], clock(n)) && EntriesFrom(entries, drafts[1..], clock, n + 1)
    ensures EntriesFrom([e] + entries, drafts, clock, n)
  {
    var es := [e] + entries;
    forall k | 0 <= k < |es|
      ensures ToolsEntryOf(es[k], drafts[k], clock(n + k))
    {
      if k > 0 {
        assert es[k] == entries[k - 1] && drafts[k] == drafts[1..][k - 1];
        assert n + 1 + (k - 1) == n + k;
      } else {
        assert n + 0 == n;
      }
    }
  }

  /** The k-th entry of a tools session is draft k's, stamped with the session's k-th timestamp. */
  lemma {:induction false} ToolsSessionEntries(drafts: seq<Obj>, script: seq<string>, clock: Clock, n: nat)
    ensures EntriesFrom(ToolsReviewFrom(drafts, script, clock, n).entries, drafts, clock, n)
    decreases |drafts|
  {
    if drafts != [] && ReadDecision(script).Some? && ReadDecision(script).value.0 != SkipAll {
      var (dec, rest) := ReadDecision(script).value;
      ToolsCons(drafts, script, clock, n);
      ToolsSessionEntries(drafts[1..], rest, clock, n + 1);
      assert ToolsEntryOf(ToolsEntry(drafts[0], dec == Approve, clock(n)), drafts[0], clock(n));
      EntriesFromCons(ToolsEntry(drafts[0], dec == Approve, clock(n)), ToolsReviewFrom(drafts[1..], rest, clock, n + 1).entries,
                      drafts, clock, n);
    }
  }

  /** The approved list has one item per entry whose decision is "approved". */
  lemma {:induction false} ToolsSessionApprovals(drafts: seq<Obj>, script: seq<string>, clock: Clock, n: nat)
    ensures var s := ToolsReviewFrom(drafts, script, clock, n);
      |s.approved| == Approvals(s.entries)
    decreases |drafts|
  {
    if drafts != [] && ReadDecision(script).Some? && ReadDecision(script).value.0 != SkipAll {
      var (dec, rest) := ReadDecision(script).value;
      ToolsCons(drafts, script, clock, n);
      ToolsSessionApprovals(drafts[1..], rest, clock, n + 1);
      ToolsEntryFields(drafts[0], dec == Approve, clock(n));
      var s := ToolsReviewFrom(drafts, script, clock, n);
      assert s.entries[1..] == ToolsReviewFrom(drafts[1..], rest, clock, n + 1).entries;
    }
  }

  /** A session that is not skipped writes one entry per draft. */
  lemma ToolsAllDecided(drafts: seq<Obj>, script: seq<string>, clock: Clock)
    requires ToolsResult(drafts, ToolsReviewFrom(drafts, script, clock, 0)) ==
      Some(map["approved" := JInt(|ToolsReviewFrom(drafts, script, clock, 0).approved|),
               "rejected" := JInt(|ToolsReviewFrom(drafts, script, clock, 0).rejected|),
               "skipped_all" := JBool(false)])
    ensures |ToolsReviewFrom(drafts, script, clock, 0).entries| == |drafts|
  {
    ToolsSessionCounts(drafts, script, clock, 0);
    var s := ToolsReviewFrom(drafts, script, clock, 0);
    if drafts != [] {
      assert !s.eof;
      var m: Obj := map["approved" := JInt(|s.approved|), "rejected" := JInt(|s.rejected|), "skipped_all" := JBool(s.skippedAll)];
      assert m["skipped_all"] == JBool(false);
    }
  }

  /** The full words of the prompt are recognised, whatever the case and surrounding blanks. */
  lemma ApproveWord()
    ensures ToolsChoice("approve") == Some(Approve)
  {
    PlainWord("approve");
  }

  lemma RejectWord()
    ensures ToolsChoice("reject") == Some(Reject)
  {
    PlainWord("reject");
  }

  lemma SkipWord()
    ensures ToolsChoice("skip") == Some(SkipAll)
  {
    PlainWord("skip");
  }

  /** A first line that is a recognised approval or rejection decides the first draft. */
  lemma ToolsDecided(ds: seq<Obj>, line: string, rest: seq<string>, clock: Clock, n: nat, dec: Decision)
    requires ds != [] && ToolsChoice(line) == Some(dec) && dec != SkipAll
    ensures ToolsReviewFrom(ds, [line] + rest, clock, n) ==
      After([ToolsEntry(ds[0], dec == Approve, clock(n))],
            if dec == Approve then [Get(ds[0], "idx")] else [],
            if dec == Approve then [] else [Get(ds[0], "idx")],
            ToolsReviewFrom(ds[1..], rest, clock, n + 1))
  {
    assert ([line] + rest)[0] == line && ([line] + rest)[1..] == rest;
    ToolsStep(ds, [line] + rest, clock, n);
  }

  /** Reject, then skip all: one entry, with the label, and the last draft untouched. */
  lemma ToolsRejectThenSkip(d2: Obj, d3: Obj, r: string, s: string, clock: Clock, n: nat)
    requires ToolsChoice(r) == Some(Reject) && ToolsChoice(s) == Some(SkipAll)
    ensures ToolsReviewFrom([d2, d3], [r, s], clock, n)
         == ToolsSession([ToolsEntry(d2, false, clock(n))], [], [Get(d2, "idx")], true, false)
  {
    assert [r, s] == [r] + [s] && [d2, d3][1..] == [d3];
    ToolsDecided([d2, d3], r, [s], clock, n, Reject);
    var last := ToolsReviewFrom([d3], [s], clock, n + 1);
    assert last == ToolsSession([], [], [], true, false);
    AfterQuiet([ToolsEntry(d2, false, clock(n))], [], [Get(d2, "idx")], last);
  }

  /**
   * Approve, reject, then skip all, over three drafts: two entries and the
   * third draft untouched.
   */
  lemma ToolsScripted(d1: Obj, d2: Obj, d3: Obj, a: string, r: string, s: string, clock: Clock)
    requires ToolsChoice(a) == Some(Approve) && ToolsChoice(r) == Some(Reject) && ToolsChoice(s) == Some(SkipAll)
    ensures var session := ToolsReviewFrom([d1, d2, d3], [a, r, s], clock, 0);
      session == ToolsSession([ToolsEntry(d1, true, clock(0)), ToolsEntry(d2, false, clock(1))],
                              [Get(d1, "idx")], [Get(d2, "idx")], true, false)
      && ToolsResult([d1, d2, d3], session) == Some(map["approved" := JInt(1), "rejected" := JInt(1), "skipped_all" := JBool(true)])
  {
    ToolsScriptedSession(d1, d2, d3, a, r, s, clock);
  }

  /** The session of `ToolsScripted`. */
  lemma ToolsScriptedSession(d1: Obj, d2: Obj, d3: Obj, a: string, r: string, s: string, clock: Clock)
    requires ToolsChoice(a) == Some(Approve) && ToolsChoice(r) == Some(Reject) && ToolsChoice(s) == Some(SkipAll)
    ensures ToolsReviewFrom([d1, d2, d3], [a, r, s], clock, 0)
         == ToolsSession([ToolsEntry(d1, true, clock(0)), ToolsEntry(d2, false, clock(1))],
                         [Get(d1, "idx")], [Get(d2, "idx")], true, false)
  {
    assert [a, r, s] == [a] + [r, s] && [d1, d2, d3][1..] == [d2, d3];
    ToolsDecided([d1, d2, d3], a, [r, s], clock, 0, Approve);
    ToolsRejectThenSkip(d2, d3, r, s, clock, 1);
    AfterOne(ToolsEntry(d1, true, clock(0)), Get(d1, "idx"), ToolsEntry(d2, false, clock(1)), Get(d2, "idx"));
  }

  /** One approval in front of a session holding one rejection and the skip. */
  lemma AfterOne(e1: Obj, i1: Json, e2: Obj, i2: Json)
    ensures After([e1], [i1], [], ToolsSession([e2], [], [i2], true, false))
         == ToolsSession([e1, e2], [i1], [i2], true, false)
  {
    assert [e1] + [e2] == [e1, e2];
  }

  // ---------------------------------------------------------------------
  // agents/feedback_review.py
  // ---------------------------------------------------------------------

  /** The fields of an agents entry: the draft's signature and index, the decision, and the reason (None when empty). */
  lemma AgentsEntryFields(d: Obj, approve: bool, reason: string, stamp: string)
    ensures var e := AgentsEntry(d, approve, reason, stamp);
      "timestamp" in e && e["timestamp"] == JStr(stamp)
      && "signature" in e && e["signature"] == Get(d, "signature")
      && "idx" in e && e["idx"] == Get(d, "idx")
      && "decision" in e && e["decision"] == JStr(if approve then "approved" else "rejected")
      && "reason" in e && (e["reason"] == JNull <==> reason == "")
  {
  }

  /** The entry records this draft. */
  predicate RecordsDraft(e: Obj, d: Obj) {
    "signature" in e && e["signature"] == Get(d, "signature") && "idx" in e && e["idx"] == Get(d, "idx")
  }

  /** The entries record some of the drafts, each at most once and in the drafts' order. */
  predicate InOrder(entries: seq<Obj>, drafts: seq<Obj>)
    decreases |drafts|
  {
    if entries == [] then true
    else if drafts == [] then false
    else (RecordsDraft(entries[0], drafts[0]) && InOrder(entries[1..], drafts[1..])) || InOrder(entries, drafts[1..])
  }

  /** What a y or n answer with its reason line adds to the rest of the session. */
  lemma AgentsCons(drafts: seq<Obj>, script: seq<string>, clock: Clock, n: nat)
    requires drafts != [] && |script| > 1 && Answer(script[0]) in {"y", "n"}
    ensures var s := AgentsReviewFrom(drafts, script, clock, n);
      var s' := AgentsReviewFrom(drafts[1..], script[2..], clock, n + 1);
      s == s'.(entries := [AgentsEntry(drafts[0], Answer(script[0]) == "y", Strip(script[1]), clock(n))] + s'.entries,
               reviewed := s'.reviewed + 1, written := s'.written + 1)
  {
  }

  /**
   * An agents session writes at most one entry per draft and returns one
   * review per entry written (an answer whose reason line is missing is
   * counted as reviewed before the input runs out).
   */
  lemma {:induction false} AgentsSessionCounts(drafts: seq<Obj>, script: seq<string>, clock: Clock, n: nat)
    ensures var s := AgentsReviewFrom(drafts, script, clock, n);
      s.written == |s.entries| <= |drafts|
      && s.written <= s.reviewed <= s.written + 1 && (!s.eof ==> s.reviewed == s.written)
    decreases |drafts|
  {
    if drafts != [] && script != [] {
      var c := Answer(script[0]);
      if c != "q" {
        if c != "y" && c != "n" {
          AgentsSessionCounts(drafts[1..], script[1..], clock, n);
        } else if |script| > 1 {
          AgentsCons(drafts, script, clock, n);
          AgentsSessionCounts(drafts[1..], script[2..], clock, n + 1);
        }
      }
    }
  }

  /** The entries of an agents session record drafts in the drafts' order, each at most once. */
  lemma {:induction false} AgentsSessionOrder(drafts: seq<Obj>, script: seq<string>, clock: Clock, n: nat)
    ensures InOrder(AgentsReviewFrom(drafts, script, clock, n).entries, drafts)
    decreases |drafts|
  {
    if drafts != [] && script != [] {
      var c := Answer(script[0]);
      if c != "q" {
        if c != "y" && c != "n" {
          AgentsSessionOrder(drafts[1..], script[1..], clock, n);
          SkipKeepsOrder(AgentsReviewFrom(drafts[1..], script[1..], clock, n).entries, drafts);
        } else if |script| > 1 {
          AgentsCons(drafts, script, clock, n);
          AgentsSessionOrder(drafts[1..], script[2..], clock, n + 1);
          var e := AgentsEntry(drafts[0], c == "y", Strip(script[1]), clock(n));
          AgentsEntryFields(drafts[0], c == "y", Strip(script[1]), clock(n));
          var rest := AgentsReviewFrom(drafts[1..], script[2..], clock, n + 1).entries;
          assert ([e] + rest)[0] == e && ([e] + rest)[1..] == rest;
        }
      }
    }
  }

  /** Entry k carries timestamp n + k. */
  predicate StampedFrom(entries: seq<Obj>, clock: Clock, n: nat) {
    forall k :: 0 <= k < |entries| ==> "timestamp" in entries[k] && entries[k]["timestamp"] == JStr(clock(n + k))
  }

  lemma StampedCons(e: Obj, entries: seq<Obj>, clock: Clock, n: nat)
    requires "timestamp" in e && e["timestamp"] == JStr(clock(n)) && StampedFrom(entries, clock, n + 1)
    ensures StampedFrom([e] + entries, clock, n)
  {
    var es := [e] + entries;
    forall k | 0 <= k < |es|
      ensures "timestamp" in es[k] && es[k]["timestamp"] == JStr(clock(n + k))
    {
      if k > 0 {
        assert es[k] == entries[k - 1] && n + 1 + (k - 1) == n + k;
      } else {
        assert n + 0 == n;
      }
    }
  }

  /** The k-th entry of an agents session carries the session's k-th timestamp. */
  lemma {:induction false} AgentsSessionStamps(drafts: seq<Obj>, script: seq<string>, clock: Clock, n: nat)
    ensures StampedFrom(AgentsReviewFrom(drafts, script, clock, n).entries, clock, n)
    decreases |drafts|
  {
    if drafts != [] && script != [] {
      var c := Answer(script[0]);
      if c != "q" {
        if c != "y" && c != "n" {
          AgentsSessionStamps(drafts[1..], script[1..], clock, n);
        } else if |script| > 1 {
          AgentsCons(drafts, script, clock, n);
          AgentsSessionStamps(drafts[1..], script[2..], clock, n + 1);
          AgentsEntryFields(drafts[0], c == "y", Strip(script[1]), clock(n));
          StampedCons(AgentsEntry(drafts[0], c == "y", Strip(script[1]), clock(n)),
                      AgentsReviewFrom(drafts[1..], script[2..], clock, n + 1).entries, clock, n);
        }
      }
    }
  }

  /** Passing over the first draft keeps the order. */
  lemma SkipKeepsOrder(entries: seq<Obj>, drafts: seq<Obj>)
    requires drafts != [] && InOrder(entries, drafts[1..])
    ensures InOrder(entries, drafts)
  {
  }

  /** An answer s passes over the draft exactly as an unrecognised answer does. */
  lemma AgentsSkipLikeInvalid(drafts: seq<Obj>, s: string, t: string, rest: seq<string>, clock: Clock, n: nat)
    requires drafts != [] && Answer(s) == "s" && Answer(t) !in {"y", "n", "q"}
    ensures AgentsReviewFrom(drafts, [s] + rest, clock, n) == AgentsReviewFrom(drafts, [t] + rest, clock, n)
    ensures AgentsReviewFrom(drafts, [s] + rest, clock, n) == AgentsReviewFrom(drafts[1..], rest, clock, n)
  {
    assert ([s] + rest)[1..] == rest && ([t] + rest)[1..] == rest;
  }

  /** An answer is read without its surrounding blanks and in lower case. */
  lemma YesAnswer()
    ensures Answer(" Y ") == "y"
  {
    assert TrimStart(" Y ") == TrimStart("Y ") == "Y ";
    assert TrimEnd("Y ") == TrimEnd("Y") == "Y";
    assert Lower("Y") == "y";
  }

  /** A y or n answer followed by a reason line records the first draft. */
  lemma AgentsDecided(ds: seq<Obj>, line: string, reason: string, rest: seq<string>, clock: Clock, n: nat)
    requires ds != [] && Answer(line) in {"y", "n"}
    ensures var s' := AgentsReviewFrom(ds[1..], rest, clock, n + 1);
      AgentsReviewFrom(ds, [line, reason] + rest, clock, n)
        == s'.(entries := [AgentsEntry(ds[0], Answer(line) == "y", Strip(reason), clock(n))] + s'.entries,
               reviewed := s'.reviewed + 1, written := s'.written + 1)
  {
    var script := [line, reason] + rest;
    assert script[0] == line && script[1] == reason && script[2..] == rest;
    AgentsCons(ds, script, clock, n);
  }

  /** s, then n with a reason, over two drafts: one entry, for the second draft. */
  lemma AgentsSkipThenNo(d2: Obj, d3: Obj, s: string, no: string, r2: string, clock: Clock, n: nat)
    requires Answer(s) == "s" && Answer(no) == "n"
    ensures AgentsReviewFrom([d2, d3], [s, no, r2], clock, n)
         == AgentsSession([AgentsEntry(d3, false, Strip(r2), clock(n))], 0 + 1, 0 + 1, false)
  {
    assert [d2, d3][1..] == [d3] && [s, no, r2][1..] == [no, r2] && [no, r2] == [no, r2] + [];
    AgentsDecided([d3], no, r2, [], clock, n);
  }

  /**
   * y with an empty reason, s, then n with a reason, over three drafts: two
   * entries, the first with no reason, and the skipped draft has none.
   */
  lemma AgentsScripted(d1: Obj, d2: Obj, d3: Obj, y: string, r1: string, s: string, no: string, r2: string, clock: Clock)
    requires Answer(y) == "y" && Answer(s) == "s" && Answer(no) == "n"
    requires Strip(r1) == "" && Strip(r2) != ""
    ensures var session := AgentsReviewFrom([d1, d2, d3], [y, r1, s, no, r2], clock, 0);
      session == AgentsSession([AgentsEntry(d1, true, "", clock(0)), AgentsEntry(d3, false, Strip(r2), clock(1))], 2, 2, false)
      && AgentsResult(session) == Some(map["reviewed" := JInt(2), "written_feedback" := JInt(2)])
      && session.entries[0]["reason"] == JNull && session.entries[1]["reason"] == JStr(Strip(r2))
  {
    assert [y, r1, s, no, r2] == [y, r1] + [s, no, r2] && [d1, d2, d3][1..] == [d2, d3];
    AgentsDecided([d1, d2, d3], y, r1, [s, no, r2], clock, 0);
    AgentsSkipThenNo(d2, d3, s, no, r2, clock, 1);
    var e1 := AgentsEntry(d1, true, "", clock(0));
    var e3 := AgentsEntry(d3, false, Strip(r2), clock(1));
    assert [e1] + [e3] == [e1, e3];
    AgentsEntryFields(d1, true, "", clock(0));
    AgentsEntryFields(d3, false, Strip(r2), clock(1));
  }
}
