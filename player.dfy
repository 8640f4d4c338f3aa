/** soundplayer.cpp: the bookkeeping of VskSoundPlayer and
    VskPhrase::execute_special_actions, in sequential form. The threads,
    the OpenAL sources and the sleeping are not part of this model; a wait
    on the stopping event is an oracle that says whether the wait ended by
    timing out (true) or by a stop (false), as VskSoundPlayer::wait_for_stop
    reports it. */
module Player {
  import opened Base

  const TWO32: int := 0x1_0000_0000

  // ---------------------------------------------------------------------------
  // Grouping special actions by gate

  /** One entry of `std::map<float, std::vector<int>> gate_to_actions`. */
  datatype Group = Group(gate: real, ids: seq<int>)

  /** The map's iteration order: strictly ascending keys. */
  predicate Ascending(gs: seq<Group>)
  {
    forall j, k :: 0 <= j < k < |gs| ==> gs[j].gate < gs[k].gate
  }

  function Gates(gs: seq<Group>): set<real>
  {
    set j | 0 <= j < |gs| :: gs[j].gate
  }

  /** The vector stored under key `g`, empty when there is none. */
  function IdsAt(gs: seq<Group>, g: real): seq<int>
  {
    if gs == [] then [] else if gs[0].gate == g then gs[0].ids else IdsAt(gs[1..], g)
  }

  /** All the ids, in iteration order. */
  function Flatten(gs: seq<Group>): seq<int>
  {
    if gs == [] then [] else gs[0].ids + Flatten(gs[1..])
  }

  /** The ids of the scheduled actions at gate `g`, in the order they were
      scheduled. */
  function ActionsAt(actions: seq<(real, int)>, g: real): seq<int>
  {
    if actions == [] then []
    else ActionsAt(actions[..|actions| - 1], g)
         + (if actions[|actions| - 1].0 == g then [actions[|actions| - 1].1] else [])
  }

  function ActionIds(actions: seq<(real, int)>): seq<int>
  {
    if actions == [] then [] else ActionIds(actions[..|actions| - 1]) + [actions[|actions| - 1].1]
  }

  function ActionGates(actions: seq<(real, int)>): set<real>
  {
    set j | 0 <= j < |actions| :: actions[j].0
  }

  /** `gate_to_actions[gate].push_back(id)`: the key is created, in its
      place in the order, when missing. */
  function Insert(gs: seq<Group>, gate: real, id: int): seq<Group>
  {
    if gs == [] then [Group(gate, [id])]
    else if gs[0].gate == gate then [gs[0].(ids := gs[0].ids + [id])] + gs[1..]
    else if gate < gs[0].gate then [Group(gate, [id])] + gs
    else [gs[0]] + Insert(gs[1..], gate, id)
  }

  /** The map built from m_gate_to_special_action_no, pair by pair. */
  function GroupByGate(actions: seq<(real, int)>): seq<Group>
  {
    if actions == [] then []
    else
      var last := actions[|actions| - 1];
      Insert(GroupByGate(actions[..|actions| - 1]), last.0, last.1)
  }

  lemma {:induction false} IdsAtMissing(gs: seq<Group>, g: real)
    requires g !in Gates(gs)
    ensures IdsAt(gs, g) == []
  {
    if gs != [] {
      assert gs[0].gate in Gates(gs);
      assert Gates(gs[1..]) <= Gates(gs) by {
        forall x | x in Gates(gs[1..]) ensures x in Gates(gs) {
          var j :| 0 <= j < |gs[1..]| && gs[1..][j].gate == x;
          assert gs[j + 1].gate == x;
        }
      }
      IdsAtMissing(gs[1..], g);
    }
  }

  lemma GatesCons(g: Group, gs: seq<Group>)
    ensures Gates([g] + gs) == {g.gate} + Gates(gs)
  {
    var s := [g] + gs;
    assert s[0].gate == g.gate;
    forall x | x in Gates(s) ensures x in {g.gate} + Gates(gs) {
      var j :| 0 <= j < |s| && s[j].gate == x;
      if j > 0 { assert gs[j - 1].gate == x; }
    }
    forall x | x in Gates(gs) ensures x in Gates(s) {
      var j :| 0 <= j < |gs| && gs[j].gate == x;
      assert s[j + 1].gate == x;
    }
  }

  lemma {:induction false} InsertGates(gs: seq<Group>, gate: real, id: int)
    ensures Gates(Insert(gs, gate, id)) == Gates(gs) + {gate}
  {
    var r := Insert(gs, gate, id);
    if gs == [] {
      GatesCons(Group(gate, [id]), []);
    } else if gs[0].gate == gate {
      assert r == [gs[0].(ids := gs[0].ids + [id])] + gs[1..];
      assert gs == [gs[0]] + gs[1..];
      GatesCons(gs[0].(ids := gs[0].ids + [id]), gs[1..]);
      GatesCons(gs[0], gs[1..]);
    } else if gate < gs[0].gate {
      GatesCons(Group(gate, [id]), gs);
    } else {
      InsertGates(gs[1..], gate, id);
      assert gs == [gs[0]] + gs[1..];
      GatesCons(gs[0], Insert(gs[1..], gate, id));
      GatesCons(gs[0], gs[1..]);
    }
  }

  lemma FirstIsLeast(gs: seq<Group>, x: real)
    requires Ascending(gs) && gs != [] && x in Gates(gs)
    ensures gs[0].gate <= x
  {
    var j :| 0 <= j < |gs| && gs[j].gate == x;
  }

  /** A group whose key lies below every key of an ascending vector can
      go in front of it. */
  lemma AscendingCons(g: Group, tail: seq<Group>)
    requires Ascending(tail) && forall x :: x in Gates(tail) ==> g.gate < x
    ensures Ascending([g] + tail)
  {
    var r := [g] + tail;
    forall j, k | 0 <= j < k < |r| ensures r[j].gate < r[k].gate {
      assert r[k] == tail[k - 1];
      if j == 0 {
        assert tail[k - 1].gate in Gates(tail);
      } else {
        assert r[j] == tail[j - 1];
      }
    }
  }

  lemma {:induction false} InsertAscending(gs: seq<Group>, gate: real, id: int)
    requires Ascending(gs)
    ensures Ascending(Insert(gs, gate, id))
  {
    if gs == [] {
      assert Insert(gs, gate, id) == [Group(gate, [id])];
    } else if gs[0].gate == gate {
      SameGatesAscending(gs, [gs[0].(ids := gs[0].ids + [id])] + gs[1..]);
    } else if gate < gs[0].gate {
      BelowFirst(gs, gate);
      AscendingCons(Group(gate, [id]), gs);
    } else {
      InsertAscending(gs[1..], gate, id);
      AboveFirst(gs, gate, id);
      AscendingCons(gs[0], Insert(gs[1..], gate, id));
    }
  }

  /** Vectors with the same keys in the same places are ascending together. */
  lemma SameGatesAscending(gs: seq<Group>, r: seq<Group>)
    requires Ascending(gs) && |r| == |gs|
    requires forall k :: 0 <= k < |r| ==> r[k].gate == gs[k].gate
    ensures Ascending(r)
  {
  }

  /** A key below the first key of an ascending vector is below all of them. */
  lemma BelowFirst(gs: seq<Group>, gate: real)
    requires Ascending(gs) && gs != [] && gate < gs[0].gate
    ensures forall x :: x in Gates(gs) ==> gate < x
  {
    forall x | x in Gates(gs) ensures gate < x {
      FirstIsLeast(gs, x);
    }
  }

  /** Inserting a key above the first into the rest keeps every key of the
      result above the first. */
  lemma AboveFirst(gs: seq<Group>, gate: real, id: int)
    requires Ascending(gs) && gs != [] && gs[0].gate < gate
    ensures forall x :: x in Gates(Insert(gs[1..], gate, id)) ==> gs[0].gate < x
  {
    InsertGates(gs[1..], gate, id);
    forall x | x in Gates(Insert(gs[1..], gate, id)) ensures gs[0].gate < x {
      if x != gate {
        var j :| 0 <= j < |gs[1..]| && gs[1..][j].gate == x;
        assert gs[j + 1].gate == x;
      }
    }
  }

  lemma {:induction false} InsertIds(gs: seq<Group>, gate: real, id: int, g: real)
    requires Ascending(gs)
    ensures IdsAt(Insert(gs, gate, id), g) == IdsAt(gs, g) + (if g == gate then [id] else [])
  {
    var r := Insert(gs, gate, id);
    if gs == [] {
    } else if gs[0].gate == gate {
      assert r[1..] == gs[1..];
    } else if gate < gs[0].gate {
      assert r[1..] == gs;
      if g == gate {
        assert gate !in Gates(gs) by {
          if gate in Gates(gs) { FirstIsLeast(gs, gate); }
        }
        IdsAtMissing(gs, gate);
      }
    } else {
      InsertIds(gs[1..], gate, id, g);
      assert r[1..] == Insert(gs[1..], gate, id);
    }
  }

  lemma {:induction false} InsertFlatten(gs: seq<Group>, gate: real, id: int)
    ensures multiset(Flatten(Insert(gs, gate, id))) == multiset(Flatten(gs)) + multiset{id}
  {
    var r := Insert(gs, gate, id);
    if gs == [] {
      assert Flatten(r) == [id] + Flatten([]);
    } else if gs[0].gate == gate {
      assert r[1..] == gs[1..];
      assert Flatten(r) == (gs[0].ids + [id]) + Flatten(gs[1..]);
    } else if gate < gs[0].gate {
      assert r[1..] == gs;
      assert Flatten(r) == [id] + Flatten(gs);
    } else {
      InsertFlatten(gs[1..], gate, id);
      assert r[1..] == Insert(gs[1..], gate, id);
      assert Flatten(r) == gs[0].ids + Flatten(Insert(gs[1..], gate, id));
    }
  }

  /** Inserting keeps the keys ascending, adds `gate` to them, appends `id`
      to the vector under `gate` and to no other, and adds exactly `id` to
      the ids. */
  lemma InsertFacts(gs: seq<Group>, gate: real, id: int)
    requires Ascending(gs)
    ensures var r := Insert(gs, gate, id);
      && Ascending(r) && Gates(r) == Gates(gs) + {gate}
      && (forall g :: IdsAt(r, g) == IdsAt(gs, g) + (if g == gate then [id] else []))
      && multiset(Flatten(r)) == multiset(Flatten(gs)) + multiset{id}
  {
    InsertAscending(gs, gate, id);
    InsertGates(gs, gate, id);
    InsertFlatten(gs, gate, id);
    forall g ensures IdsAt(Insert(gs, gate, id), g) == IdsAt(gs, g) + (if g == gate then [id] else []) {
      InsertIds(gs, gate, id, g);
    }
  }

  /** The grouping iterates the gates in ascending order, one group per
      distinct gate; each group holds the ids scheduled at its gate in the
      order they were scheduled; and together the groups hold every
      scheduled id exactly once. */
  lemma {:induction false} GroupByGateFacts(actions: seq<(real, int)>)
    ensures var gs := GroupByGate(actions);
      && Ascending(gs) && Gates(gs) == ActionGates(actions)
      && (forall g :: IdsAt(gs, g) == ActionsAt(actions, g))
      && multiset(Flatten(gs)) == multiset(ActionIds(actions))
  {
    if actions != [] {
      var init := actions[..|actions| - 1];
      var last := actions[|actions| - 1];
      GroupByGateFacts(init);
      InsertFacts(GroupByGate(init), last.0, last.1);
      assert ActionGates(actions) == ActionGates(init) + {last.0} by {
        forall x | x in ActionGates(actions) ensures x in ActionGates(init) + {last.0} {
          var j :| 0 <= j < |actions| && actions[j].0 == x;
          if j < |actions| - 1 { assert init[j].0 == x; }
        }
        forall x | x in ActionGates(init) ensures x in ActionGates(actions) {
          var j :| 0 <= j < |init| && init[j].0 == x;
          assert actions[j].0 == x;
        }
      }
    }
  }

  /** The loop of execute_special_actions that fills gate_to_actions. */
  method GroupActions(actions: seq<(real, int)>) returns (gs: seq<Group>)
    ensures gs == GroupByGate(actions)
  {
    gs := [];
    var i := 0;
    while i < |actions|
      invariant i <= |actions| && gs == GroupByGate(actions[..i])
    {
      assert actions[..i + 1][..i] == actions[..i];
      gs := Insert(gs, actions[i].0, actions[i].1);
      i := i + 1;
    }
    assert actions[..|actions|] == actions;
  }

  // ---------------------------------------------------------------------------
  // Waiting between groups

  /** `uint32_t(gate - last_gate) * 1000`: the gap truncated toward zero to
      whole seconds, in 32-bit unsigned arithmetic. */
  function WaitMs(gap: real): (ms: int)
    ensures 0 <= ms < TWO32
  {
    var secs := if gap >= 0.0 then gap.Floor else -((-gap).Floor);
    (secs % TWO32 * 1000) % TWO32
  }

  /** For a gap of a few days at most, the wait is the whole seconds of the
      gap: never longer than the gap and short of it by less than a second. */
  lemma WaitWholeSeconds(gap: real)
    requires 0.0 <= gap < 4294967.0
    ensures WaitMs(gap) as real <= gap * 1000.0 < WaitMs(gap) as real + 1000.0
    ensures WaitMs(gap) % 1000 == 0
  {
    var s := gap.Floor;
    assert 0 <= s < 4294967;
    assert s % TWO32 == s;
    assert 0 <= s * 1000 < TWO32;
    assert WaitMs(gap) == s * 1000;
    assert s as real <= gap < s as real + 1.0;
  }

  /** The waits asked for, one per group, each measured from the previous
      group's gate (from 0 for the first). */
  function Waits(gs: seq<Group>, last: real): (w: seq<int>)
    ensures |w| == |gs|
  {
    if gs == [] then [] else [WaitMs(gs[0].gate - last)] + Waits(gs[1..], gs[0].gate)
  }

  /** wait_for_stop's answer to the j-th wait: answers not given are
      timeouts. */
  function Awake(awake: seq<bool>, j: nat): bool
  {
    j >= |awake| || awake[j]
  }

  /** The number of groups fired: the loop leaves at the first wait that a
      stop ended. */
  function FiredCount(awake: seq<bool>, j: nat, n: nat): (k: nat)
    requires j <= n
    ensures j <= k <= n
    ensures forall t :: j <= t < k ==> Awake(awake, t)
    ensures k < n ==> !Awake(awake, k)
    decreases n - j
  {
    if j == n then n else if !Awake(awake, j) then j else FiredCount(awake, j + 1, n)
  }

  lemma {:induction false} FlattenSnoc(gs: seq<Group>, j: nat)
    requires j < |gs|
    ensures Flatten(gs[..j + 1]) == Flatten(gs[..j]) + gs[j].ids
  {
    if j == 0 {
      assert gs[..1] == [gs[0]];
      assert Flatten([gs[0]]) == gs[0].ids + Flatten([]);
    } else {
      FlattenSnoc(gs[1..], j - 1);
      assert gs[..j + 1][1..] == gs[1..][..j];
      assert gs[..j][1..] == gs[1..][..j - 1];
    }
  }

  lemma {:induction false} WaitsSnoc(gs: seq<Group>, last: real, j: nat)
    requires j < |gs|
    ensures Waits(gs, last)[..j + 1]
            == Waits(gs, last)[..j] + [WaitMs(gs[j].gate - (if j == 0 then last else gs[j - 1].gate))]
  {
    if j > 0 {
      WaitsSnoc(gs[1..], gs[0].gate, j - 1);
    }
  }

  // ---------------------------------------------------------------------------
  // The player

  /** A VskSpecialActionFn, known by its identity. */
  datatype ActionFn = ActionFn(address: nat)

  /** What do_special_action did for one action id. */
  datatype Call = Invoked(fn: ActionFn, actionNo: int) | DefaultMessage(actionNo: int)

  /** do_special_action's choice: the registered function, or the default
      message when the id has none (or a null one). */
  function Dispatch(fns: map<int, Option<ActionFn>>, actionNo: int): (c: Call)
    ensures c.actionNo == actionNo
    ensures c.Invoked? <==> actionNo in fns && fns[actionNo].Some?
  {
    if actionNo in fns && fns[actionNo].Some? then Invoked(fns[actionNo].value, actionNo)
    else DefaultMessage(actionNo)
  }

  function DispatchAll(fns: map<int, Option<ActionFn>>, ids: seq<int>): (cs: seq<Call>)
    ensures |cs| == |ids|
    ensures forall j :: 0 <= j < |ids| ==> cs[j] == Dispatch(fns, ids[j])
  {
    seq(|ids|, j requires 0 <= j < |ids| => Dispatch(fns, ids[j]))
  }

  /** A registration decides the dispatch of its id and of no other. */
  lemma RegisterThenDispatch(fns: map<int, Option<ActionFn>>, actionNo: int, fn: ActionFn, other: int)
    requires other != actionNo
    ensures Dispatch(fns[actionNo := Some(fn)], actionNo) == Invoked(fn, actionNo)
    ensures Dispatch(fns[actionNo := Some(fn)], other) == Dispatch(fns, other)
  {
  }

  /** The phrase of a score block, as the player needs it once realized. */
  datatype Slot = Slot(goal: real, actions: seq<(real, int)>)

  /** VskScoreBlock: one possibly empty phrase pointer per channel. */
  type ScoreBlock = seq<Option<Slot>>

  /** The goal of a block: the longest goal of its phrases, 0 when there
      are none. */
  function Goal(block: ScoreBlock): (g: real)
    ensures 0.0 <= g
  {
    if block == [] then 0.0
    else
      var g0 := Goal(block[..|block| - 1]);
      var last := block[|block| - 1];
      if last.Some? && g0 < last.value.goal then last.value.goal else g0
  }

  /** Goal is the maximum of the phrases' goals and 0. */
  lemma {:induction false} GoalIsMax(block: ScoreBlock)
    ensures forall j :: 0 <= j < |block| && block[j].Some? ==> block[j].value.goal <= Goal(block)
    ensures Goal(block) == 0.0 || exists j :: 0 <= j < |block| && block[j].Some? && block[j].value.goal == Goal(block)
  {
    if block != [] {
      var init := block[..|block| - 1];
      GoalIsMax(init);
      assert forall j :: 0 <= j < |init| ==> init[j] == block[j];
      if Goal(block) != 0.0 && Goal(block) == Goal(init) {
        var j :| 0 <= j < |init| && init[j].Some? && init[j].value.goal == Goal(init);
        assert block[j].Some? && block[j].value.goal == Goal(block);
      }
    }
  }

  /** The "get the goal" loop of the playing thread: the longest goal of
      the block's phrases, 0 when there are none. */
  method BlockGoal(block: ScoreBlock) returns (goal: real)
    ensures goal == Goal(block)
    ensures 0.0 <= goal
    ensures forall j :: 0 <= j < |block| && block[j].Some? ==> block[j].value.goal <= goal
    ensures goal == 0.0 || exists j :: 0 <= j < |block| && block[j].Some? && block[j].value.goal == goal
  {
    goal := 0.0;
    var j := 0;
    while j < |block|
      invariant j <= |block| && 0.0 <= goal
      invariant goal == Goal(block[..j])
      invariant forall t :: 0 <= t < j && block[t].Some? ==> block[t].value.goal <= goal
      invariant goal == 0.0 || exists t :: 0 <= t < j && block[t].Some? && block[t].value.goal == goal
    {
      assert block[..j + 1][..j] == block[..j];
      if block[j].Some? && goal < block[j].value.goal {
        goal := block[j].value.goal;
      }
      j := j + 1;
    }
    assert block[..j] == block;
  }

  /** `uint32_t(goal * 1000.0f)`: the goal in whole milliseconds, truncated,
      in 32-bit unsigned arithmetic. */
  function GoalWaitMs(goal: real): (ms: int)
    requires 0.0 <= goal
    ensures 0 <= ms < TWO32
  {
    Trunc(goal * 1000.0) % TWO32
  }

  /** A goal below 2^32 ms waits its whole milliseconds: never longer than
      the goal and short of it by less than a millisecond. */
  lemma GoalWaitWholeMs(goal: real)
    requires 0.0 <= goal && goal * 1000.0 < TWO32 as real
    ensures GoalWaitMs(goal) as real <= goal * 1000.0 < GoalWaitMs(goal) as real + 1.0
  {
    var n := Trunc(goal * 1000.0);
    assert n < TWO32;
    assert n % TWO32 == n;
  }

  /** The goal waits of the played blocks, one per block. */
  function GoalWaits(blocks: seq<ScoreBlock>): (w: seq<int>)
    ensures |w| == |blocks|
  {
    if blocks == [] then []
    else GoalWaits(blocks[..|blocks| - 1]) + [GoalWaitMs(Goal(blocks[|blocks| - 1]))]
  }

  /** Wait i is the goal wait of block i. */
  lemma {:induction false} GoalWaitsAt(blocks: seq<ScoreBlock>, i: nat)
    requires i < |blocks|
    ensures GoalWaits(blocks)[i] == GoalWaitMs(Goal(blocks[i]))
  {
    var init := blocks[..|blocks| - 1];
    if i < |init| {
      GoalWaitsAt(init, i);
    }
  }

  /** The ids execute_special_actions performs for a schedule `actions`
      when its waits are answered by `awake`: the groups fired, in order. */
  function FiredIds(actions: seq<(real, int)>, awake: seq<bool>): seq<int>
  {
    var gs := GroupByGate(actions);
    Flatten(gs[..FiredCount(awake, 0, |gs|)])
  }

  /** The answers to the waits of every phrase of every played block:
      `awake[b][j]` for phrase j of block b. */
  type Oracle = seq<seq<seq<bool>>>

  /** The answers for phrase j of block b; answers not given are timeouts. */
  function Answers(awake: Oracle, b: nat, j: nat): seq<bool>
  {
    if b < |awake| && j < |awake[b]| then awake[b][j] else []
  }

  /** The ids performed for the phrases of block number `b`, phrase by
      phrase; `Answers(awake, b, j)` answers the waits of phrase j. */
  function BlockFired(block: ScoreBlock, b: nat, awake: Oracle): seq<int>
  {
    if block == [] then []
    else
      var j := |block| - 1;
      BlockFired(block[..j], b, awake) + PhraseIds(block[j], Answers(awake, b, j))
  }

  /** The ids performed for one channel's phrase, none when it is absent. */
  function PhraseIds(slot: Option<Slot>, awake: seq<bool>): seq<int>
  {
    if slot.Some? then FiredIds(slot.value.actions, awake) else []
  }

  /** BlockFired over one more phrase. */
  lemma BlockFiredSnoc(done: seq<int>, block: ScoreBlock, j: nat, b: nat, awake: Oracle)
    requires j < |block|
    ensures done + BlockFired(block[..j + 1], b, awake)
         == (done + BlockFired(block[..j], b, awake)) + PhraseIds(block[j], Answers(awake, b, j))
  {
    assert block[..j + 1][..j] == block[..j];
  }

  /** The ids performed for a sequence of played blocks, block by block. */
  function DrainedIds(blocks: seq<ScoreBlock>, awake: Oracle): seq<int>
  {
    if blocks == [] then []
    else
      var b := |blocks| - 1;
      DrainedIds(blocks[..b], awake) + BlockFired(blocks[b], b, awake)
  }

  /** With no wait ended by a stop, every action scheduled in a block's
      phrases is performed exactly once. */
  lemma {:induction false} BlockFiredWithoutStop(block: ScoreBlock, b: nat, awake: Oracle)
    requires forall j, t :: 0 <= j < |block| && 0 <= t < |Answers(awake, b, j)| ==> Answers(awake, b, j)[t]
    ensures |BlockFired(block, b, awake)| == BlockActionCount(block)
  {
    if block != [] {
      var j := |block| - 1;
      var init := block[..j];
      assert forall t :: 0 <= t < |init| ==> init[t] == block[t];
      BlockFiredWithoutStop(init, b, awake);
      if block[j].Some? {
        AllFiredWithoutStop(block[j].value.actions, Answers(awake, b, j));
      }
    }
  }

  /** With no wait ended by a stop, draining performs every action
      scheduled in every played block exactly once. */
  lemma {:induction false} DrainedWithoutStop(blocks: seq<ScoreBlock>, awake: Oracle)
    requires forall b, j, t :: 0 <= b < |blocks| && 0 <= j < |blocks[b]| && 0 <= t < |Answers(awake, b, j)| ==> Answers(awake, b, j)[t]
    ensures |DrainedIds(blocks, awake)| == DrainedActionCount(blocks)
  {
    if blocks != [] {
      var b := |blocks| - 1;
      var init := blocks[..b];
      assert forall t :: 0 <= t < |init| ==> init[t] == blocks[t];
      DrainedWithoutStop(init, awake);
      BlockFiredWithoutStop(blocks[b], b, awake);
    }
  }

  function DrainedActionCount(blocks: seq<ScoreBlock>): nat
  {
    if blocks == [] then 0
    else DrainedActionCount(blocks[..|blocks| - 1]) + BlockActionCount(blocks[|blocks| - 1])
  }

  /** The number of special actions scheduled in a block's phrases. */
  function BlockActionCount(block: ScoreBlock): nat
  {
    if block == [] then 0
    else
      var j := |block| - 1;
      BlockActionCount(block[..j]) + (if block[j].Some? then |block[j].value.actions| else 0)
  }

  class SoundPlayer {
    /** m_playing_music. */
    var playing: bool
    /** m_melody_line: the blocks waiting to be played. */
    var melodyLine: seq<ScoreBlock>
    /** m_action_no_to_special_action. */
    var actionFns: map<int, Option<ActionFn>>
    /** What do_special_action has done so far, in order. */
    var calls: seq<Call>

    constructor ()
      ensures !playing && melodyLine == [] && actionFns == map[] && calls == []
    {
      playing := false;
      melodyLine := [];
      actionFns := map[];
      calls := [];
    }

    /** play(block): the block joins the queue; a consumer is started
        (`started`) only when none is playing already. */
    method Play(block: ScoreBlock) returns (started: bool)
      modifies this
      ensures melodyLine == old(melodyLine) + [block]
      ensures started == !old(playing) && playing
      ensures actionFns == old(actionFns) && calls == old(calls)
    {
      melodyLine := melodyLine + [block];
      if playing {
        return false;
      }
      playing := false;
      playing := true;
      started := true;
    }

    /** One turn of the consumer loop: the front block leaves the queue; an
        empty queue stops the player instead. */
    method NextBlock() returns (next: Option<ScoreBlock>)
      modifies this
      ensures old(melodyLine) == [] ==> next == None && !playing && melodyLine == []
      ensures old(melodyLine) != [] ==> next == Some(old(melodyLine)[0]) && melodyLine == old(melodyLine)[1..]
                                        && playing == old(playing)
      ensures actionFns == old(actionFns) && calls == old(calls)
    {
      if melodyLine == [] {
        Stop();
        return None;
      }
      next := Some(melodyLine[0]);
      melodyLine := melodyLine[1..];
    }

    /** The consumer thread run to its end with nothing else happening.
        The queued blocks are played in the order they were queued; for
        each, the goal is taken, every phrase's special actions are
        executed (`Answers(awake, b, j)` answers the waits of phrase j of block b)
        and the goal's milliseconds are waited (`goalWaits`). The player
        ends stopped with an empty queue. */
    method Drain(awake: Oracle) returns (played: seq<ScoreBlock>, goalWaits: seq<int>)
      modifies this
      ensures played == old(melodyLine) && melodyLine == [] && !playing
      ensures goalWaits == GoalWaits(played)
      ensures calls == old(calls) + DispatchAll(old(actionFns), DrainedIds(played, awake))
      ensures Registered(actionFns) == Registered(old(actionFns))
    {
      played := [];
      goalWaits := [];
      while true
        invariant played + melodyLine == old(melodyLine)
        invariant goalWaits == GoalWaits(played)
        invariant calls == old(calls) + DispatchAll(old(actionFns), DrainedIds(played, awake))
        invariant Registered(actionFns) == Registered(old(actionFns))
        decreases |melodyLine|
      {
        var next;
        next, goalWaits := Turn(played, awake, goalWaits, old(actionFns), old(calls), old(melodyLine));
        if next == None {
          return;
        }
        played := played + [next.value];
      }
    }

    /** One turn of the consumer loop: the front block leaves the queue and
        is played, or the queue is empty and the player stops. */
    method Turn(played: seq<ScoreBlock>, awake: Oracle, waits: seq<int>,
                ghost fns0: map<int, Option<ActionFn>>, ghost base: seq<Call>, ghost queue0: seq<ScoreBlock>)
      returns (next: Option<ScoreBlock>, waits': seq<int>)
      requires played + melodyLine == queue0 && waits == GoalWaits(played)
      requires Registered(actionFns) == Registered(fns0)
      requires calls == base + DispatchAll(fns0, DrainedIds(played, awake))
      modifies this
      ensures next.None? ==> melodyLine == [] && !playing && played == queue0
                             && waits' == waits && calls == old(calls)
      ensures next.Some? ==> |melodyLine| < old(|melodyLine|) && (played + [next.value]) + melodyLine == queue0
                             && waits' == GoalWaits(played + [next.value])
                             && calls == base + DispatchAll(fns0, DrainedIds(played + [next.value], awake))
      ensures Registered(actionFns) == Registered(fns0)
    {
      ghost var queued := melodyLine;
      next := NextBlock();
      if next == None {
        return next, waits;
      }
      assert queued == [next.value] + melodyLine;
      waits' := PlayQueued(next.value, played, awake, waits, fns0, base);
      assert (played + [next.value]) + melodyLine == played + queued;
    }

    /** One turn of the consumer loop after the block left the queue: the
        goal is taken, the phrases are played and the goal is waited. */
    method PlayQueued(block: ScoreBlock, played: seq<ScoreBlock>, awake: Oracle,
                      waits: seq<int>, ghost fns0: map<int, Option<ActionFn>>, ghost base: seq<Call>)
      returns (waits': seq<int>)
      requires waits == GoalWaits(played)
      requires Registered(actionFns) == Registered(fns0)
      requires calls == base + DispatchAll(fns0, DrainedIds(played, awake))
      modifies this
      ensures waits' == GoalWaits(played + [block])
      ensures calls == base + DispatchAll(fns0, DrainedIds(played + [block], awake))
      ensures Registered(actionFns) == Registered(fns0)
      ensures playing == old(playing) && melodyLine == old(melodyLine)
    {
      var goal := BlockGoal(block);
      PlayBlock(block, |played|, awake, fns0, base, DrainedIds(played, awake));
      waits' := waits + [GoalWaitMs(goal)];
      assert (played + [block])[..|played|] == played;
    }

    /** The "play phrases" loop of one block: execute_special_actions for
        every phrase present, in channel order. `fns0` is a table with the
        same dispatch as the current one and `done` the ids performed
        before. */
    method PlayBlock(block: ScoreBlock, b: nat, awake: Oracle,
                     ghost fns0: map<int, Option<ActionFn>>, ghost base: seq<Call>, ghost done: seq<int>)
      requires Registered(actionFns) == Registered(fns0)
      requires calls == base + DispatchAll(fns0, done)
      modifies this
      ensures calls == base + DispatchAll(fns0, done + BlockFired(block, b, awake))
      ensures Registered(actionFns) == Registered(fns0)
      ensures playing == old(playing) && melodyLine == old(melodyLine)
    {
      var j := 0;
      ghost var ids := done;
      while j < |block|
        invariant j <= |block|
        invariant ids == done + BlockFired(block[..j], b, awake)
        invariant calls == base + DispatchAll(fns0, ids)
        invariant Registered(actionFns) == Registered(fns0)
        invariant playing == old(playing) && melodyLine == old(melodyLine)
      {
        PlayPhrase(block[j], Answers(awake, b, j), fns0, base, ids);
        BlockFiredSnoc(done, block, j, b, awake);
        ids := ids + PhraseIds(block[j], Answers(awake, b, j));
        j := j + 1;
      }
      assert block[..j] == block;
    }

    /** One channel of the block: when a phrase is present, its special
        actions are executed and their dispatches appended to the record. */
    method PlayPhrase(slot: Option<Slot>, awake: seq<bool>,
                      ghost fns0: map<int, Option<ActionFn>>, ghost base: seq<Call>, ghost done: seq<int>)
      requires Registered(actionFns) == Registered(fns0)
      requires calls == base + DispatchAll(fns0, done)
      modifies this
      ensures calls == base + DispatchAll(fns0, done + PhraseIds(slot, awake))
      ensures Registered(actionFns) == Registered(fns0)
      ensures playing == old(playing) && melodyLine == old(melodyLine)
    {
      if slot.None? {
        assert done + [] == done;
        return;
      }
      var waits, remaining := ExecuteSpecialActions(slot.value.actions, awake);
      SameDispatchRegistered(actionFns, old(actionFns));
      RegisteredDispatchAll(old(actionFns), fns0, FiredIds(slot.value.actions, awake));
      DispatchAppend(fns0, done, FiredIds(slot.value.actions, awake));
    }

    /** stop(): not playing, and the queued blocks are dropped. */
    method Stop()
      modifies this
      ensures !playing && melodyLine == []
      ensures actionFns == old(actionFns) && calls == old(calls)
    {
      playing := false;
      melodyLine := [];
    }

    /** register_special_action(action_no, fn); `fn` may be null (None). */
    method RegisterSpecialAction(actionNo: int, fn: Option<ActionFn>)
      modifies this
      ensures actionFns == old(actionFns)[actionNo := fn]
      ensures playing == old(playing) && melodyLine == old(melodyLine) && calls == old(calls)
    {
      actionFns := actionFns[actionNo := fn];
    }

    /** do_special_action(action_no): the registered function or the
        default message. Looking the id up with `operator[]` inserts a null
        entry for an unknown id, which changes no later dispatch. */
    method DoSpecialAction(actionNo: int)
      modifies this
      ensures calls == old(calls) + [Dispatch(old(actionFns), actionNo)]
      ensures actionFns == if actionNo in old(actionFns) then old(actionFns) else old(actionFns)[actionNo := None]
      ensures forall x :: Dispatch(actionFns, x) == Dispatch(old(actionFns), x)
      ensures playing == old(playing) && melodyLine == old(melodyLine)
    {
      if actionNo !in actionFns {
        actionFns := actionFns[actionNo := None];
      }
      var fn := actionFns[actionNo];
      if fn.Some? {
        calls := calls + [Invoked(fn.value, actionNo)];
      } else {
        calls := calls + [DefaultMessage(actionNo)];
      }
    }

    /** The detached thread of one group: do_special_action for each id, in
        order. */
    method DoSpecialActions(ids: seq<int>)
      modifies this
      ensures calls == old(calls) + DispatchAll(old(actionFns), ids)
      ensures forall x :: Dispatch(actionFns, x) == Dispatch(old(actionFns), x)
      ensures playing == old(playing) && melodyLine == old(melodyLine)
    {
      var t := 0;
      while t < |ids|
        invariant t <= |ids|
        invariant calls == old(calls) + DispatchAll(old(actionFns), ids[..t])
        invariant forall x :: Dispatch(actionFns, x) == Dispatch(old(actionFns), x)
        invariant playing == old(playing) && melodyLine == old(melodyLine)
      {
        DoSpecialAction(ids[t]);
        assert ids[..t + 1] == ids[..t] + [ids[t]];
        t := t + 1;
      }
      assert ids[..t] == ids;
    }

    /** VskPhrase::execute_special_actions for a phrase's schedule
        `actions`, with `awake` the answers of the successive waits. The
        groups are fired in ascending gate order, each after waiting the
        whole seconds since the previous one, until a wait is ended by a
        stop. `waits` are the waits asked for and `remaining` the final
        m_remaining_actions. */
    method ExecuteSpecialActions(actions: seq<(real, int)>, awake: seq<bool>)
      returns (waits: seq<int>, remaining: int)
      modifies this
      ensures var gs := GroupByGate(actions);
              var k := FiredCount(awake, 0, |gs|);
              && calls == old(calls) + DispatchAll(old(actionFns), Flatten(gs[..k]))
              && remaining == |actions| - |Flatten(gs[..k])|
              && waits == Waits(gs, 0.0)[..if k < |gs| then k + 1 else k]
      ensures forall x :: Dispatch(actionFns, x) == Dispatch(old(actionFns), x)
      ensures playing == old(playing) && melodyLine == old(melodyLine)
    {
      if |actions| == 0 {
        return [], 0;
      }
      var gs := GroupActions(actions);
      waits, remaining := FireGroups(gs, awake, |actions|);
    }

    /** The loop over the groups of execute_special_actions, starting from
        `total` remaining actions. */
    method FireGroups(gs: seq<Group>, awake: seq<bool>, total: int)
      returns (waits: seq<int>, remaining: int)
      modifies this
      ensures var k := FiredCount(awake, 0, |gs|);
              && calls == old(calls) + DispatchAll(old(actionFns), Flatten(gs[..k]))
              && remaining == total - |Flatten(gs[..k])|
              && waits == Waits(gs, 0.0)[..if k < |gs| then k + 1 else k]
      ensures forall x :: Dispatch(actionFns, x) == Dispatch(old(actionFns), x)
      ensures playing == old(playing) && melodyLine == old(melodyLine)
    {
      ghost var k := FiredCount(awake, 0, |gs|);
      remaining := total;
      waits := [];
      var lastGate := 0.0;
      var j := 0;
      while j < |gs|
        invariant j <= k
        invariant calls == old(calls) + DispatchAll(old(actionFns), Flatten(gs[..j]))
        invariant remaining == total - |Flatten(gs[..j])|
        invariant waits == Waits(gs, 0.0)[..j]
        invariant lastGate == if j == 0 then 0.0 else gs[j - 1].gate
        invariant forall x :: Dispatch(actionFns, x) == Dispatch(old(actionFns), x)
        invariant playing == old(playing) && melodyLine == old(melodyLine)
      {
        WaitsSnoc(gs, 0.0, j);
        waits := waits + [WaitMs(gs[j].gate - lastGate)];
        if !Awake(awake, j) {
          assert j == k;
          return;
        }
        FireOne(gs, j, old(actionFns), old(calls));
        remaining := remaining - |gs[j].ids|;
        lastGate := gs[j].gate;
        j := j + 1;
      }
    }

    /** One group's actions, appended to the record of the groups before;
        `fns0` is a table with the same dispatch as the current one. */
    method FireOne(gs: seq<Group>, j: nat, ghost fns0: map<int, Option<ActionFn>>, ghost base: seq<Call>)
      requires j < |gs|
      requires forall x :: Dispatch(actionFns, x) == Dispatch(fns0, x)
      requires calls == base + DispatchAll(fns0, Flatten(gs[..j]))
      modifies this
      ensures calls == base + DispatchAll(fns0, Flatten(gs[..j + 1]))
      ensures |Flatten(gs[..j + 1])| == |Flatten(gs[..j])| + |gs[j].ids|
      ensures forall x :: Dispatch(actionFns, x) == Dispatch(fns0, x)
      ensures playing == old(playing) && melodyLine == old(melodyLine)
    {
      ghost var before := DispatchAll(fns0, Flatten(gs[..j]));
      DoSpecialActions(gs[j].ids);
      DispatchAllSame(old(actionFns), fns0, gs[j].ids);
      FlattenSnoc(gs, j);
      DispatchAppend(fns0, Flatten(gs[..j]), gs[j].ids);
      assert (base + before) + DispatchAll(fns0, gs[j].ids) == base + (before + DispatchAll(fns0, gs[j].ids));
    }
  }

  /** The functions a table holds: its ids with a non-null entry. */
  function Registered(fns: map<int, Option<ActionFn>>): map<int, ActionFn>
  {
    map x | x in fns && fns[x].Some? :: fns[x].value
  }

  /** Two tables that dispatch every id alike hold the same functions. */
  lemma SameDispatchRegistered(f: map<int, Option<ActionFn>>, g: map<int, Option<ActionFn>>)
    requires forall x :: Dispatch(f, x) == Dispatch(g, x)
    ensures Registered(f) == Registered(g)
  {
    forall x
      ensures x in Registered(f) <==> x in Registered(g)
      ensures x in Registered(f) ==> Registered(f)[x] == Registered(g)[x]
    {
      assert Dispatch(f, x) == Dispatch(g, x);
    }
  }

  /** Tables holding the same functions dispatch every sequence alike. */
  lemma RegisteredDispatchAll(f: map<int, Option<ActionFn>>, g: map<int, Option<ActionFn>>, ids: seq<int>)
    requires Registered(f) == Registered(g)
    ensures DispatchAll(f, ids) == DispatchAll(g, ids)
  {
    forall x
      ensures Dispatch(f, x) == Dispatch(g, x)
    {
      assert x in Registered(f) <==> x in Registered(g);
    }
  }

  /** Two tables that dispatch every id alike dispatch every sequence alike. */
  lemma DispatchAllSame(f: map<int, Option<ActionFn>>, g: map<int, Option<ActionFn>>, ids: seq<int>)
    requires forall x :: Dispatch(f, x) == Dispatch(g, x)
    ensures DispatchAll(f, ids) == DispatchAll(g, ids)
  {
  }

  lemma DispatchAppend(fns: map<int, Option<ActionFn>>, a: seq<int>, b: seq<int>)
    ensures DispatchAll(fns, a + b) == DispatchAll(fns, a) + DispatchAll(fns, b)
  {
  }

  /** When no wait is ended by a stop, every scheduled action is performed
      exactly once (the groups regroup them), none remains, and one wait is
      asked for per distinct gate. */
  lemma AllFiredWithoutStop(actions: seq<(real, int)>, awake: seq<bool>)
    requires forall j :: 0 <= j < |awake| ==> awake[j]
    ensures var gs := GroupByGate(actions);
      && FiredCount(awake, 0, |gs|) == |gs|
      && multiset(Flatten(gs[..|gs|])) == multiset(ActionIds(actions))
      && |Flatten(gs[..|gs|])| == |actions|
  {
    var gs := GroupByGate(actions);
    GroupByGateFacts(actions);
    assert gs[..|gs|] == gs;
    ActionIdsLength(actions);
    assert |multiset(Flatten(gs))| == |multiset(ActionIds(actions))|;
  }

  lemma {:induction false} ActionIdsLength(actions: seq<(real, int)>)
    ensures |ActionIds(actions)| == |actions|
  {
    if actions != [] {
      ActionIdsLength(actions[..|actions| - 1]);
    }
  }
}
