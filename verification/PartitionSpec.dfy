/**
 What one Kafka partition goes through between assignment and revocation, as a state
 machine over atomic steps. The class in PartitionManager.dfy refines it.
 */
module PartitionSpec {

  /** NODE_STATE_TODO, NODE_STATE_DOING, NODE_STATE_DONE. */
  datatype NodeState = Todo | Doing | Done

  /** Message number `i` (in order of receipt) has offset `offsets[i]` and state `states[i]`.
      The first `trimmed` messages have left the list. `commits` holds the numbers of the
      messages handed to Kafka's commit, oldest first. */
  datatype Partition = Partition(offsets: seq<int>, states: seq<NodeState>, trimmed: nat, commits: seq<nat>)

  const EMPTY := Partition([], [], 0, [])

  /** How many messages Kafka will not deliver again. */
  function Mark(commits: seq<nat>): nat {
    if commits == [] then 0 else commits[|commits| - 1] + 1
  }

  function Watermark(s: Partition): nat { Mark(s.commits) }

  predicate DoneUpTo(states: seq<NodeState>, n: nat) {
    n <= |states| && forall i :: 0 <= i < n ==> states[i] == Done
  }

  // ---------- steps ----------

  ghost predicate Append(s: Partition, t: Partition) {
    exists offset :: t == s.(offsets := s.offsets + [offset], states := s.states + [Todo])
  }

  /** A message moves TODO to DOING or DOING to DONE; nothing else ever happens to a state. */
  ghost predicate Advance(s: Partition, t: Partition) {
    exists i | 0 <= i < |s.states| ::
      || (s.states[i] == Todo && t == s.(states := s.states[i := Doing]))
      || (s.states[i] == Doing && t == s.(states := s.states[i := Done]))
  }

  /** Message `pos` and every message before it must be DONE, and the previous commit must
      have been followed by its trim. */
  ghost predicate Commit(s: Partition, t: Partition) {
    exists pos: nat | s.trimmed <= pos < |s.states| ::
      && Watermark(s) == s.trimmed
      && DoneUpTo(s.states, pos + 1)
      && t == s.(commits := s.commits + [pos])
  }

  ghost predicate Trim(s: Partition, t: Partition) {
    t == s.(trimmed := Watermark(s))
  }

  ghost predicate Step(s: Partition, t: Partition) {
    Append(s, t) || Advance(s, t) || Commit(s, t) || Trim(s, t)
  }

  ghost predicate IsRun(h: seq<Partition>) {
    && |h| > 0
    && h[0] == EMPTY
    && forall i :: 0 <= i < |h| - 1 ==> Step(h[i], h[i + 1])
  }

  lemma ExtendRun(h: seq<Partition>, t: Partition)
    requires IsRun(h)
    requires Step(h[|h| - 1], t)
    ensures IsRun(h + [t])
  {
    var g := h + [t];
    forall i | 0 <= i < |g| - 1 ensures Step(g[i], g[i + 1]) {
      if i < |h| - 1 {
        assert Step(h[i], h[i + 1]);
      }
    }
  }

  // ---------- safety over whole runs ----------

  /** Commit positions strictly increase and only cover finished messages; the list holds
      exactly what is past the last completed trim. */
  predicate Safe(s: Partition) {
    && |s.states| == |s.offsets|
    && s.trimmed <= Watermark(s)
    && DoneUpTo(s.states, Watermark(s))
    && (forall j :: 0 <= j < |s.commits| ==> s.commits[j] < |s.states|)
    && (forall j, k :: 0 <= j < k < |s.commits| ==> s.commits[j] < s.commits[k])
  }

  lemma StepIsSafe(s: Partition, t: Partition)
    requires Safe(s) && Step(s, t)
    ensures Safe(t)
  {
    if Commit(s, t) {
      assert forall j :: 0 <= j < |s.commits| ==> s.commits[j] < Watermark(s);
    }
  }

  /** Commit safety: in every state of every run, each committed message and all messages
      before it are DONE. A crash at any moment therefore loses no unfinished message. */
  lemma {:induction false} RunIsSafe(h: seq<Partition>, n: nat)
    requires IsRun(h) && n < |h|
    ensures Safe(h[n])
    ensures forall j, i :: 0 <= j < |h[n].commits| && 0 <= i <= h[n].commits[j] ==>
              i < |h[n].states| && h[n].states[i] == Done
    decreases n
  {
    if n > 0 {
      RunIsSafe(h, n - 1);
      assert Step(h[n - 1], h[n - 1 + 1]);
      StepIsSafe(h[n - 1], h[n]);
    }
    var s := h[n];
    forall j, i | 0 <= j < |s.commits| && 0 <= i <= s.commits[j]
      ensures i < |s.states| && s.states[i] == Done
    {
      assert s.commits[j] < Watermark(s);
    }
  }

  function Rank(st: NodeState): nat {
    match st case Todo => 0 case Doing => 1 case Done => 2
  }

  /** What a later state of a run keeps from an earlier one. */
  predicate Later(s: Partition, t: Partition) {
    && s.offsets <= t.offsets
    && s.commits <= t.commits
    && s.trimmed <= t.trimmed
    && |s.states| <= |t.states|
    && forall i :: 0 <= i < |s.states| ==> Rank(s.states[i]) <= Rank(t.states[i])
  }

  /** Nothing received is ever lost or reordered, no state goes back, no commit is undone
      and the trimmed part only grows, between any two states of a run. */
  lemma {:induction false} RunIsMonotone(h: seq<Partition>, m: nat, n: nat)
    requires IsRun(h) && m <= n < |h|
    ensures Later(h[m], h[n])
    decreases n - m
  {
    if m < n {
      RunIsMonotone(h, m, n - 1);
      RunIsSafe(h, n - 1);
      assert Step(h[n - 1], h[n - 1 + 1]);
    }
  }

  /** With increasing offsets the offset handed to Kafka never goes back. */
  lemma CommittedOffsetsIncrease(h: seq<Partition>, n: nat)
    requires IsRun(h) && n < |h|
    requires forall i, j :: 0 <= i < j < |h[n].offsets| ==> h[n].offsets[i] < h[n].offsets[j]
    ensures var s := h[n];
            forall j, k :: 0 <= j < k < |s.commits| ==>
              s.commits[j] < |s.offsets| && s.commits[k] < |s.offsets| &&
              s.offsets[s.commits[j]] < s.offsets[s.commits[k]]
  {
    RunIsSafe(h, n);
  }
}
