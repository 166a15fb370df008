/**
 The commit watermark of one Kafka partition: an in-order list of messages that workers
 finish in any order, and a scanner that commits and trims the longest finished prefix.
 Other threads run at every call of Workers and Outside below, so each contract holds for
 every interleaving. `history` records every state passed through; Valid keeps it a run of
 PartitionSpec.
 */
module PartitionManager {
  import opened PartitionSpec

  /** PM_DATA: shared by the list, the scanner and the session that finishes it. */
  class Node {
    const offset: int
    var state: NodeState

    constructor (offset: int)
      ensures this.offset == offset && state == Todo
    {
      this.offset := offset;
      state := Todo;
    }
  }

  /** The offsets Kafka was told to commit for this partition, oldest first. Commit takes a
      node that is not null, so every call below proves it has one. */
  class CommitLog {
    var committed: seq<int>

    constructor ()
      ensures committed == []
    {
      committed := [];
    }

    method Commit(msg: Node)
      modifies this
      ensures committed == old(committed) + [msg.offset]
    {
      committed := committed + [msg.offset];
    }
  }

  datatype Status = Status(cacheSize: nat, processNum: nat, commitNum: nat,
                           todoNum: nat, doingNum: nat, doneNum: nat)

  /** Length of the longest prefix of DONE messages. */
  function DonePrefix(states: seq<NodeState>): (n: nat)
    ensures DoneUpTo(states, n)
    ensures n < |states| ==> states[n] != Done
  {
    if states == [] || states[0] != Done then 0 else 1 + DonePrefix(states[1..])
  }

  /** How many of the messages are DONE. */
  function DoneCount(states: seq<NodeState>): (n: nat)
    ensures n <= |states|
  {
    if states == [] then 0
    else DoneCount(states[..|states| - 1]) + if states[|states| - 1] == Done then 1 else 0
  }

  lemma DoneCountNext(states: seq<NodeState>, st: NodeState)
    ensures DoneCount(states + [st]) == DoneCount(states) + if st == Done then 1 else 0
  {
    assert (states + [st])[..|states|] == states;
  }

  lemma {:induction false} DoneCountGrows(a: seq<NodeState>, b: seq<NodeState>)
    requires |a| == |b| && forall i :: 0 <= i < |a| && a[i] == Done ==> b[i] == Done
    ensures DoneCount(a) <= DoneCount(b)
  {
    if a != [] {
      DoneCountGrows(a[..|a| - 1], b[..|b| - 1]);
    }
  }

  /** Each message was counted as one that it was at some moment between `before` and `after`. */
  predicate Counted(before: seq<NodeState>, seen: seq<NodeState>, after: seq<NodeState>) {
    && |before| == |seen| == |after|
    && forall i :: 0 <= i < |seen| ==> (before[i] == Done ==> seen[i] == Done) && (seen[i] == Done ==> after[i] == Done)
  }

  lemma CountedBounds(before: seq<NodeState>, seen: seq<NodeState>, after: seq<NodeState>)
    requires Counted(before, seen, after)
    ensures DoneCount(before) <= DoneCount(seen) <= DoneCount(after)
  {
    DoneCountGrows(before, seen);
    DoneCountGrows(seen, after);
  }

  /** A message that is DONE in one state of a run is so in the last. */
  lemma StillDone(h: seq<Partition>, n: nat)
    requires IsRun(h) && n < |h|
    ensures var now := h[|h| - 1].states;
            |h[n].states| <= |now| && forall i :: 0 <= i < |h[n].states| && h[n].states[i] == Done ==> now[i] == Done
  {
    RunIsMonotone(h, n, |h| - 1);
  }

  lemma PrefixDrop(a: seq<Node>, b: seq<Node>, c: seq<Node>, n: nat)
    requires n <= |a| && a <= b && b[n..] <= c
    ensures a[n..] <= c
  {
    assert b == a + b[|a|..];
    assert b[n..] == a[n..] + b[|a|..];
  }

  ghost predicate Distinct(nodes: seq<Node>) {
    forall i, j :: 0 <= i < j < |nodes| ==> nodes[i] != nodes[j]
  }

  ghost function Offsets(nodes: seq<Node>): seq<int> {
    seq(|nodes|, i requires 0 <= i < |nodes| => nodes[i].offset)
  }

  ghost function States(nodes: seq<Node>): seq<NodeState>
    reads nodes
  {
    seq(|nodes|, i requires 0 <= i < |nodes| reads nodes => nodes[i].state)
  }

  class PartitionManager {
    const log: CommitLog
    const commitNum: int
    var list: seq<Node>
    ghost var received: seq<Node>
    ghost var trimmed: nat
    ghost var positions: seq<nat>
    ghost var history: seq<Partition>

    ghost function View(): Partition
      reads this, received
    {
      Partition(Offsets(received), States(received), trimmed, positions)
    }

    ghost predicate Valid()
      reads this, received, log
    {
      && commitNum >= 1
      && Distinct(received)
      && trimmed <= |received|
      && list == received[trimmed..]
      && (forall j :: 0 <= j < |positions| ==> positions[j] < |received|)
      && |log.committed| == |positions|
      && (forall j :: 0 <= j < |positions| ==> log.committed[j] == received[positions[j]].offset)
      && Recorded()
    }

    ghost predicate Recorded()
      reads this, received
    {
      IsRun(history) && history[|history| - 1] == View()
    }

    /** What holds whenever the mutex is free and no scan is between its commit and its trim. */
    ghost predicate Ready()
      reads this, received, log
    {
      && Valid()
      && Mark(positions) == trimmed
      && forall n :: n in received ==> n.state != Todo
    }

    constructor (log: CommitLog, commitNum: int)
      requires log.committed == []
      ensures Ready() && list == [] && received == [] && this.log == log
      ensures commitNum > 0 ==> this.commitNum == commitNum
    {
      this.log := log;
      this.commitNum := if commitNum <= 0 then 1 else commitNum;
      list, received, trimmed, positions := [], [], 0, [];
      history := [EMPTY];
    }

    ghost method Record()
      requires IsRun(history)
      requires Step(history[|history| - 1], View())
      modifies this`history
      ensures history == old(history) + [View()]
      ensures IsRun(history)
    {
      ExtendRun(history, View());
      history := history + [View()];
    }

    /** A state change of one message, by the scanner, the handler or a worker's Final. */
    method SetState(n: Node, state: NodeState)
      requires Valid() && n in received
      requires (n.state == Todo && state == Doing) || (n.state == Doing && state == Done)
      modifies n, this`history
      ensures Valid() && n.state == state
      ensures old(history) <= history
    {
      ghost var before := View();
      ghost var i :| 0 <= i < |received| && received[i] == n;
      n.state := state;
      assert States(received) == before.states[i := state];
      assert Offsets(received) == before.offsets;
      assert View() == before.(states := before.states[i := state]);
      assert before.states[i] == old(n.state);
      assert Advance(before, View());
      Record();
    }

    /** Any set of running messages is finished by the workers. */
    method Workers()
      requires Valid()
      modifies received, this`history
      ensures Valid()
      ensures old(history) <= history
      ensures forall n :: n in received ==>
                n.state == old(n.state) || (old(n.state) == Doing && n.state == Done)
    {
      var i := 0;
      while i < |list|
        invariant 0 <= i <= |list|
        invariant Valid()
        invariant old(history) <= history
        invariant forall n :: n in received ==>
                    n.state == old(n.state) || (old(n.state) == Doing && n.state == Done)
      {
        var finished: bool := *;
        if finished && list[i].state == Doing {
          SetState(list[i], Done);
        }
        i := i + 1;
      }
    }

    /** `parsed` says whether the handler could parse the message and enqueue a session. */
    method ProcessTodo(data: Node, parsed: bool) returns (r: bool)
      requires Valid() && data in received
      modifies data, this`history
      ensures Valid()
      ensures old(history) <= history
      ensures r <==> old(data.state) == Todo && parsed
      ensures data.state == if old(data.state) != Todo then old(data.state)
                            else if parsed then Doing else Done
    {
      r := false;
      if data.state == Todo {
        SetState(data, Doing);
        if !parsed {
          SetState(data, Done);
        }
        r := parsed;
      }
    }

    /** The consumer thread delivers one message. */
    method EmplaceBack(offset: int, parsed: bool)
      requires Valid() && forall n :: n in received ==> n.state != Todo
      modifies this`list, this`received, this`history
      ensures Valid()
      ensures old(history) <= history
      ensures |received| == |old(received)| + 1 && old(received) <= received
      ensures |list| == |old(list)| + 1 && old(list) <= list
      ensures list[|list| - 1] == received[|received| - 1]
      ensures fresh(list[|list| - 1]) && list[|list| - 1].offset == offset
      ensures list[|list| - 1].state == if parsed then Doing else Done
    {
      ghost var before := View();
      var data := new Node(offset);
      list := list + [data];
      received := received + [data];
      assert States(received) == before.states + [Todo];
      assert Offsets(received) == before.offsets + [offset];
      assert Append(before, View());
      Record();
      var r := ProcessTodo(data, parsed);
    }

    /** The consumer appends any number of new messages. */
    method Arrivals()
      requires Valid() && forall n :: n in received ==> n.state != Todo
      modifies this`list, this`received, this`history
      ensures Valid()
      ensures old(history) <= history
      ensures old(received) <= received && old(list) <= list
      ensures forall n :: n in received ==> n.state != Todo
      ensures forall n :: n in received && n !in old(received) ==> fresh(n)
    {
      var arrivals: nat := *;
      while arrivals > 0
        invariant Valid()
        invariant old(history) <= history
        invariant old(received) <= received && old(list) <= list
        invariant forall n :: n in received ==> n.state != Todo
        invariant forall n :: n in received && n !in old(received) ==> fresh(n)
      {
        var offset: int := *;
        var parsed: bool := *;
        EmplaceBack(offset, parsed);
        arrivals := arrivals - 1;
      }
    }

    /** Other threads while the scanner does not hold the mutex. */
    method Outside()
      requires Valid() && forall n :: n in received ==> n.state != Todo
      modifies received, this`list, this`received, this`history
      ensures Valid()
      ensures old(history) <= history
      ensures old(received) <= received && old(list) <= list
      ensures forall n :: n in received ==> n.state != Todo
      ensures forall n :: n in received && n !in old(received) ==> fresh(n)
      ensures forall n :: n in old(received) && old(n.state) == Done ==> n.state == Done
    {
      Workers();
      Arrivals();
    }

    method RemoveFromHead(num: nat)
      requires Valid() && num <= |list|
      requires trimmed + num == Mark(positions)
      modifies this`list, this`trimmed, this`history
      ensures Valid() && trimmed == old(trimmed) + num && list == old(list)[num..]
      ensures old(history) <= history
    {
      ghost var before := View();
      ghost var list0 := list;
      var i := 0;
      while |list| > 0 && i < num
        invariant 0 <= i <= num
        invariant list == list0[i..]
        modifies this`list
      {
        list := list[1..];
        i := i + 1;
      }
      trimmed := trimmed + num;
      assert Trim(before, View());
      Record();
    }

    /** The scan's visit to one message: the DONE test while the prefix is still open, then
        process_todo, then the three separate reads by which it is counted. Workers run before
        each of them. */
    method Visit(n: Node, isFirst: bool)
      returns (sawDone: bool, started: bool, todo: int, doing: int, done: int)
      requires Valid() && n in received
      modifies received, this`history
      ensures Valid()
      ensures old(history) <= history
      ensures forall m :: m in received ==> Rank(old(m.state)) <= Rank(m.state)
      ensures forall i :: 0 <= i < |list| && old(list[i].state) == Done ==> list[i].state == Done
      ensures todo == 0 && doing + done == 1 && 0 <= doing <= 1
      ensures (old(n.state) == Done ==> done == 1) && (done == 1 ==> n.state == Done)
      ensures sawDone ==> n.state == Done
      ensures old(n.state) == Done && isFirst ==> sawDone
      ensures old(n.state) != Todo ==> !started
    {
      sawDone := SeeDone(n, isFirst);
      Workers();
      var parsed: bool := *;
      started := ProcessTodo(n, parsed);
      Workers();
      todo, doing, done := Count(n);
    }

    method SeeDone(n: Node, isFirst: bool) returns (sawDone: bool)
      requires Valid() && n in received
      modifies received, this`history
      ensures Valid()
      ensures old(history) <= history
      ensures forall m :: m in received ==> m.state == old(m.state) || (old(m.state) == Doing && m.state == Done)
      ensures sawDone ==> n.state == Done
      ensures old(n.state) == Done && isFirst ==> sawDone
    {
      sawDone := false;
      if isFirst {
        Workers();
        sawDone := n.state == Done;
      }
    }

    /** The three reads by which a message is counted. */
    method Count(n: Node) returns (todo: int, doing: int, done: int)
      requires Valid() && n in received && n.state != Todo
      modifies received, this`history
      ensures Valid()
      ensures old(history) <= history
      ensures forall m :: m in received ==> Rank(old(m.state)) <= Rank(m.state)
      ensures forall i :: 0 <= i < |list| && old(list[i].state) == Done ==> list[i].state == Done
      ensures todo == 0 && doing + done == 1 && 0 <= doing <= 1
      ensures (old(n.state) == Done ==> done == 1) && (done == 1 ==> n.state == Done)
    {
      todo, doing, done := 0, 0, 0;
      if n.state == Todo {
        todo := 1;
      } else {
        Workers();
        if n.state == Doing {
          doing := 1;
        } else {
          Workers();
          if n.state == Done {
            done := 1;
          }
        }
      }
    }

    /** The first `n` messages of the list are DONE. */
    ghost predicate HeadDone(n: nat)
      reads this, list
    {
      n <= |list| && forall i :: 0 <= i < n ==> list[i].state == Done
    }

    /** One turn of the scan loop, which keeps a finished head finished and may extend it. */
    method Turn(pos: nat, isFirst: bool, ghost head: nat)
      returns (sawDone: bool, started: bool, todo: int, doing: int, done: int, ghost newHead: nat)
      requires Ready() && pos < |list| && HeadDone(head)
      modifies received, this`history
      ensures Ready() && old(history) <= history
      ensures todo == 0 && doing + done == 1 && 0 <= doing <= 1 && !started
      ensures (old(list[pos].state) == Done ==> done == 1) && (done == 1 ==> list[pos].state == Done)
      ensures forall i :: 0 <= i < |list| && old(list[i].state) == Done ==> list[i].state == Done
      ensures HeadDone(newHead) && newHead >= head
      ensures isFirst && head > pos ==> sawDone
      ensures sawDone && head >= pos ==> newHead > pos
    {
      assert list[pos] in received;
      sawDone, started, todo, doing, done := Visit(list[pos], isFirst);
      newHead := if sawDone && head == pos then pos + 1 else head;
    }

    /** The scan before the message at `pos`: while `isFirst`, everything seen was DONE; after
        that the position, the forced commit and the message to commit are settled. The first
        `head` messages are known to be DONE, the first `d` were so before the scan. */
    ghost predicate Scanning(pos: nat, isFirst: bool, firstNotDonePos: nat, forceCommit: bool, kmsg: Node?,
                             head: nat, d: nat)
      reads this, list
    {
      && pos <= |list|
      && HeadDone(head)
      && (if isFirst then d <= head && pos <= head && firstNotDonePos == 0 && (pos < |list| || |list| == 0)
          else d <= firstNotDonePos <= head && |list| > 0)
      && (forceCommit <==> firstNotDonePos == |list| > 0)
      && (firstNotDonePos > 0 ==> kmsg == list[firstNotDonePos - 1])
    }

    /** What the scan concludes from the message at `pos`, which it saw DONE or not. */
    method CloseAt(pos: nat, isFirst: bool, firstNotDonePos: nat, forceCommit: bool, kmsg: Node?, sawDone: bool,
                   ghost head: nat, ghost d: nat, ghost head': nat)
      returns (isFirst': bool, firstNotDonePos': nat, forceCommit': bool, kmsg': Node?)
      requires pos < |list| && Scanning(pos, isFirst, firstNotDonePos, forceCommit, kmsg, head, d)
      requires HeadDone(head') && head' >= head
      requires isFirst ==> (head > pos ==> sawDone) && (sawDone && head >= pos ==> head' > pos)
      ensures Scanning(pos + 1, isFirst', firstNotDonePos', forceCommit', kmsg', head', d)
    {
      isFirst', firstNotDonePos', forceCommit', kmsg' := isFirst, firstNotDonePos, forceCommit, kmsg;
      if isFirst {
        if !sawDone {
          isFirst' := false;
          if pos != 0 {
            firstNotDonePos' := pos;
            kmsg' := list[pos - 1];
          }
        } else if pos == |list| - 1 {
          isFirst' := false;
          firstNotDonePos' := pos + 1;
          kmsg' := list[pos];
          forceCommit' := true;
        }
      }
    }

    /** The messages before the scan were in the states `states`, and those counted so far in `seen`. */
    ghost predicate Seeing(states: seq<NodeState>, seen: seq<NodeState>)
      reads this, list
    {
      && |seen| <= |list| == |states|
      && (forall i :: 0 <= i < |list| && states[i] == Done ==> list[i].state == Done)
      && forall i :: 0 <= i < |seen| ==>
           (states[i] == Done ==> seen[i] == Done) && (seen[i] == Done ==> list[i].state == Done)
    }

    /** A turn of the loop, with what it adds to the states counted. */
    method SeeingTurn(isFirst: bool, ghost head: nat, ghost states: seq<NodeState>, ghost seen: seq<NodeState>, pos: nat)
      returns (sawDone: bool, started: bool, todo: int, doing: int, done: int, ghost newHead: nat, ghost seen': seq<NodeState>)
      requires Ready() && pos < |list| && HeadDone(head) && Seeing(states, seen) && |seen| == pos
      modifies received, this`history
      ensures Ready() && old(history) <= history
      ensures todo == 0 && doing + done == 1 && 0 <= doing <= 1 && !started
      ensures Seeing(states, seen') && |seen'| == pos + 1 && DoneCount(seen') == DoneCount(seen) + done
      ensures HeadDone(newHead) && newHead >= head
      ensures isFirst && head > pos ==> sawDone
      ensures sawDone && head >= pos ==> newHead > pos
    {
      sawDone, started, todo, doing, done, newHead := Turn(pos, isFirst, head);
      DoneCountNext(seen, if done == 1 then Done else Doing);
      seen' := seen + [if done == 1 then Done else Doing];
    }

    method ScanTurn(pos: nat, isFirst: bool, firstNotDonePos: nat, forceCommit: bool, kmsg: Node?,
                    ghost head: nat, ghost d: nat, ghost states: seq<NodeState>, ghost seen: seq<NodeState>)
      returns (isFirst': bool, firstNotDonePos': nat, forceCommit': bool, kmsg': Node?,
               started: bool, todo: int, doing: int, done: int, ghost head': nat, ghost seen': seq<NodeState>)
      requires Ready() && pos < |list| && Scanning(pos, isFirst, firstNotDonePos, forceCommit, kmsg, head, d)
      requires Seeing(states, seen) && |seen| == pos
      modifies received, this`history
      ensures Ready() && old(history) <= history
      ensures todo == 0 && doing + done == 1 && 0 <= doing <= 1 && !started
      ensures Seeing(states, seen') && |seen'| == pos + 1 && DoneCount(seen') == DoneCount(seen) + done
      ensures Scanning(pos + 1, isFirst', firstNotDonePos', forceCommit', kmsg', head', d)
    {
      var sawDone;
      sawDone, started, todo, doing, done, head', seen' := SeeingTurn(isFirst, head, states, seen, pos);
      isFirst', firstNotDonePos', forceCommit', kmsg' :=
        CloseAt(pos, isFirst, firstNotDonePos, forceCommit, kmsg, sawDone, head, d, head');
    }

    /** The loop under the mutex: finds the first message that is not DONE, with the message
        to commit, and counts the states. */
    method ScanLoop(ghost d: nat, ghost states: seq<NodeState>)
      returns (firstNotDonePos: nat, forceCommit: bool, kmsg: Node?, status: Status, ghost seen: seq<NodeState>)
      requires Ready() && HeadDone(d) && Seeing(states, [])
      modifies received, this`history
      ensures Ready() && old(history) <= history
      ensures status.cacheSize == |list| && status.commitNum == 0
      ensures status.todoNum + status.doingNum + status.doneNum == status.cacheSize
      ensures status.processNum == 0 && status.todoNum == 0
      ensures Seeing(states, seen) && |seen| == |list| && status.doneNum == DoneCount(seen)
      ensures exists isFirst, head :: Scanning(|list|, isFirst, firstNotDonePos, forceCommit, kmsg, head, d)
    {
      ghost var head := d;
      firstNotDonePos, forceCommit, kmsg := 0, false, null;
      seen := [];
      var processNum, todoNum, doingNum, doneNum := 0, 0, 0, 0;
      var isFirst, pos := true, 0;
      while pos < |list|
        invariant Ready() && old(history) <= history
        invariant processNum == 0 && todoNum == 0 && 0 <= doingNum && 0 <= doneNum && doingNum + doneNum == pos
        invariant Scanning(pos, isFirst, firstNotDonePos, forceCommit, kmsg, head, d)
        invariant Seeing(states, seen) && |seen| == pos && doneNum == DoneCount(seen)
      {
        var started, todo, doing, done;
        isFirst, firstNotDonePos, forceCommit, kmsg, started, todo, doing, done, head, seen :=
          ScanTurn(pos, isFirst, firstNotDonePos, forceCommit, kmsg, head, d, states, seen);
        if started {
          processNum := processNum + 1;
        }
        todoNum, doingNum, doneNum := todoNum + todo, doingNum + doing, doneNum + done;
        pos := pos + 1;
      }
      status := Status(|list|, processNum, 0, todoNum, doingNum, doneNum);
    }

    /** The scan: its position, and its counts between what was DONE before and after it. */
    method Scan() returns (firstNotDonePos: nat, forceCommit: bool, kmsg: Node?, status: Status)
      requires Ready()
      modifies received, this`history
      ensures Ready() && old(history) <= history
      ensures status.cacheSize == |list| && status.commitNum == 0
      ensures status.todoNum + status.doingNum + status.doneNum == status.cacheSize
      ensures status.processNum == 0 && status.todoNum == 0
      ensures old(DoneCount(States(list))) <= status.doneNum <= DoneCount(States(list))
      ensures HeadDone(firstNotDonePos)
      ensures forceCommit <==> firstNotDonePos == |list| > 0
      ensures firstNotDonePos > 0 ==> kmsg == list[firstNotDonePos - 1]
      ensures old(DonePrefix(States(list))) <= firstNotDonePos
    {
      ghost var states, seen := States(list), [];
      ghost var d: nat := DonePrefix(states);
      assert forall i :: 0 <= i < d ==> states[i] == list[i].state;
      firstNotDonePos, forceCommit, kmsg, status, seen := ScanLoop(d, states);
      CountedBounds(states, seen, States(list));
    }

    /** The positions committed so far and, after a commit of `num` messages, the last of them. */
    ghost function Committed(before: seq<nat>, start: nat, num: nat): seq<nat> {
      if num == 0 then before else before + [start + num - 1]
    }

    /** One scan and, when it pays, one commit and trim. Each message is counted in exactly one
        state although the states change meanwhile; a prefix is committed only if all of it is
        DONE, exactly that prefix is trimmed although the mutex was released and the tail grew,
        and whatever was finished beforehand is committed once it is enough. */
    method DoSomething() returns (status: Status)
      requires Ready()
      modifies this`list, this`received, this`trimmed, this`positions, this`history, received, log
      ensures Ready() && old(history) <= history && old(received) <= received
      ensures status.cacheSize == |old(list)|
      ensures status.todoNum + status.doingNum + status.doneNum == status.cacheSize
      ensures status.processNum == 0 && status.todoNum == 0
      ensures old(DoneCount(States(list))) <= status.doneNum <= DoneCount(States(old(list)))
      ensures status.commitNum <= |old(list)|
      ensures trimmed == old(trimmed) + status.commitNum
      ensures old(list)[status.commitNum..] <= list
      ensures positions == Committed(old(positions), old(trimmed), status.commitNum)
      ensures forall i :: 0 <= i < status.commitNum ==> old(list)[i].state == Done
      ensures status.commitNum > 0 ==>
                status.commitNum >= commitNum || status.commitNum == |old(list)|
      ensures var d := old(DonePrefix(States(list)));
              d > 0 && (d >= commitNum || d == |old(list)|) ==> status.commitNum >= d
    {
      var firstNotDonePos, forceCommit, kmsg;
      firstNotDonePos, forceCommit, kmsg, status := Scan();
      var num := CommitIfEnough(firstNotDonePos, forceCommit, kmsg);
      status := status.(commitNum := num);
    }

    /** Messages that were DONE at an earlier moment of the history are counted as such later. */
    lemma DoneLater(before: seq<Partition>, was: seq<Node>, start: nat, scanned: seq<Node>, states: seq<NodeState>)
      requires Valid() && before != [] && before <= history && was <= received
      requires start <= |was| == |before[|before| - 1].states| && scanned == was[start..]
      requires states == before[|before| - 1].states[start..]
      ensures DoneCount(states) <= DoneCount(States(scanned))
    {
      var m := |before| - 1;
      StillDone(history, m);
      assert history[m] == before[m];
      forall i | 0 <= i < |scanned| && states[i] == Done ensures scanned[i].state == Done {
        assert history[m].states[start + i] == states[i];
        assert was[start..][i] == received[start + i];
      }
      DoneCountGrows(states, States(scanned));
    }

    lemma ListStates()
      requires Valid()
      ensures history != [] && |received| == |history[|history| - 1].states|
      ensures States(list) == history[|history| - 1].states[trimmed..]
    {
      assert forall i :: 0 <= i < |list| ==> list[i] == received[trimmed + i];
    }

    /** What the scan found is committed when it is enough, or everything. */
    method CommitIfEnough(firstNotDonePos: nat, forceCommit: bool, kmsg: Node?) returns (num: nat)
      requires Ready() && HeadDone(firstNotDonePos)
      requires forceCommit ==> firstNotDonePos > 0
      requires firstNotDonePos > 0 ==> kmsg == list[firstNotDonePos - 1]
      modifies this`list, this`received, this`trimmed, this`positions, this`history, received, log
      ensures Ready() && old(history) <= history && old(received) <= received
      ensures num == if forceCommit || firstNotDonePos >= commitNum then firstNotDonePos else 0
      ensures trimmed == old(trimmed) + num && old(list)[num..] <= list
      ensures positions == Committed(old(positions), old(trimmed), num)
      ensures forall i :: 0 <= i < num ==> old(list)[i].state == Done
      ensures old(DoneCount(States(list))) <= DoneCount(States(old(list)))
    {
      ghost var before, was, scanned, start, states := history, received, list, trimmed, States(list);
      ListStates();
      num := 0;
      if forceCommit || firstNotDonePos >= commitNum {
        CommitAndTrim(firstNotDonePos, kmsg);
        num := firstNotDonePos;
      }
      DoneLater(before, was, start, scanned, states);
    }

    /** The mutex is free before the commit, during it and until the trim takes it again. */
    method CommitAndTrim(num: nat, kmsg: Node?)
      requires Ready() && 0 < num <= |list| && kmsg == list[num - 1]
      requires HeadDone(num)
      modifies this`list, this`received, this`trimmed, this`positions, this`history, received, log
      ensures Ready() && old(history) <= history && old(received) <= received
      ensures trimmed == old(trimmed) + num && old(list)[num..] <= list
      ensures positions == old(positions) + [old(trimmed) + num - 1]
      ensures forall i :: 0 <= i < num ==> old(list)[i].state == Done
    {
      ghost var scanned := list;
      CommitUnlocked(num, kmsg);
      Finish(num, scanned);
    }

    method CommitUnlocked(num: nat, kmsg: Node?)
      requires Ready() && 0 < num <= |list| && kmsg == list[num - 1] && HeadDone(num)
      modifies this`list, this`received, this`positions, this`history, received, log
      ensures Valid() && old(history) <= history && old(received) <= received
      ensures old(list) <= list && Mark(positions) == trimmed + num
      ensures positions == old(positions) + [trimmed + num - 1]
      ensures forall n :: n in received ==> n.state != Todo
      ensures forall i :: 0 <= i < |received| ==> received[i] in old(received) || fresh(received[i])
      ensures forall i :: 0 <= i < num ==> old(list)[i].state == Done
    {
      ghost var list0 := list;
      Outside();
      assert HeadDone(num) by {
        assert forall i :: 0 <= i < num ==> list[i] == list0[i] && list0[i] in old(received);
      }
      CommitPrefix(num, kmsg);
    }

    /** The trim: `scanned` is the list that was scanned, the current one has grown from it. */
    method Finish(num: nat, ghost scanned: seq<Node>)
      requires Valid() && num <= |scanned| && scanned <= list && trimmed + num == Mark(positions)
      requires forall n :: n in received ==> n.state != Todo
      requires forall i :: 0 <= i < num ==> scanned[i].state == Done
      modifies this`list, this`received, this`trimmed, this`history, received
      ensures Ready() && old(history) <= history && old(received) <= received
      ensures forall i :: 0 <= i < num ==> scanned[i].state == Done
      ensures trimmed == old(trimmed) + num && scanned[num..] <= list
    {
      ghost var grown := list;
      assert forall i :: 0 <= i < num ==> scanned[i] == grown[i] && grown[i] in received;
      Outside();
      ghost var late := list;
      RemoveFromHead(num);
      PrefixDrop(scanned, late, list, num);
    }

    /** The call into Kafka. The requires is the whole safety argument: the node handed over is
        the last one of a prefix that is entirely DONE. */
    method CommitPrefix(num: nat, kmsg: Node?)
      requires Valid() && Mark(positions) == trimmed
      requires 0 < num <= |list| && kmsg == list[num - 1]
      requires HeadDone(num)
      modifies log, this`positions, this`history
      ensures Valid() && positions == old(positions) + [trimmed + num - 1]
      ensures Mark(positions) == trimmed + num
      ensures old(history) <= history
    {
      ghost var before := View();
      RunIsSafe(history, |history| - 1);
      ghost var pos := trimmed + num - 1;
      log.Commit(kmsg);
      positions := positions + [pos];
      forall i | 0 <= i < pos + 1 ensures before.states[i] == Done {
        if i >= trimmed {
          assert received[i] == list[i - trimmed];
        }
      }
      assert Commit(before, View());
      Record();
    }
  }

  // ---------- back-pressure over all partitions ----------

  function Unfinished(all: seq<Status>): int {
    if all == [] then 0
    else (all[0].cacheSize - all[0].doneNum) % 0x1_0000_0000 + Unfinished(all[1..])
  }

  function Pending(all: seq<Status>): nat {
    if all == [] then 0 else all[0].todoNum + all[0].doingNum + Pending(all[1..])
  }

  /** The messages of all partitions that are not DONE. */
  function AllUnfinished(partitions: seq<seq<NodeState>>): nat {
    if partitions == [] then 0
    else |partitions[0]| - DoneCount(partitions[0]) + AllUnfinished(partitions[1..])
  }

  /** What DoSomething promises of a status, for a list with the states `before` the scan and
      `after` it. */
  predicate Reports(s: Status, before: seq<NodeState>, after: seq<NodeState>) {
    && s.todoNum + s.doingNum + s.doneNum == s.cacheSize == |before| == |after|
    && DoneCount(before) <= s.doneNum <= DoneCount(after)
  }

  /** The unsigned 32-bit difference in the back-pressure sum never wraps: for the statuses of
      scans it counts exactly the messages they did not find DONE, and so lies between the number
      of messages unfinished after the scans and the number before them. */
  lemma {:induction false} BackpressureCountsUnfinished(all: seq<Status>, before: seq<seq<NodeState>>,
                                                        after: seq<seq<NodeState>>)
    requires |all| == |before| == |after|
    requires forall k :: 0 <= k < |all| ==> Reports(all[k], before[k], after[k]) && all[k].cacheSize < 0x1_0000_0000
    ensures Unfinished(all) == Pending(all)
    ensures AllUnfinished(after) <= Unfinished(all) <= AllUnfinished(before)
  {
    if all != [] {
      assert Reports(all[0], before[0], after[0]);
      BackpressureCountsUnfinished(all[1..], before[1..], after[1..]);
    }
  }
}
