/** Reachable states, for stating that some run of the cluster comes to one. */
module Reaching {
  import opened Messages
  import opened Consensus
  import opened Cluster
  import opened Replication
  import Choice
  import Votes

  /** What a run may assume: a stable leader 0 whom nobody suspects; the same but for recovery ids that may be shared;
      or unique round ids, increasing message ids and one proposer at a time. */
  datatype Setting = StableLeader | SharedIds | OneProposer

  ghost predicate Allowed(setting: Setting, s: System, step: Step) {
    match setting
    case StableLeader => Trusted(0, s, step)
    case SharedIds => Enabled(s, step) && IsNode(s, 0) && OnlyLeads(0, step) && Settled(0, s, step)
        && Trusting(0, s, step)
    case OneProposer => Enabled(s, step) && Choice.Orderly(s, step) && Votes.MessageIdsIncrease(s, step)
  }

  ghost predicate AllowedAt(setting: Setting, states: seq<System>, steps: seq<Step>, i: int)
    requires |states| == |steps| + 1 && 0 <= i < |steps|
  {
    Allowed(setting, states[i], steps[i])
  }

  ghost predicate AllowedRun(setting: Setting, states: seq<System>, steps: seq<Step>) {
    && IsRun(states, steps) && IsNode(states[0], 0)
    && forall i {:trigger AllowedAt(setting, states, steps, i)} :: 0 <= i < |steps| ==>
       AllowedAt(setting, states, steps, i)
  }

  ghost predicate Reachable(setting: Setting, s: System) {
    exists states, steps :: AllowedRun(setting, states, steps) && states[|steps|] == s
  }

  lemma Next(setting: Setting, s: System, step: Step) returns (s': System)
    requires Reachable(setting, s) && Allowed(setting, s, step)
    ensures Reachable(setting, s') && s' == Apply(s, step)
  {
    var states, steps :| AllowedRun(setting, states, steps) && states[|steps|] == s;
    s' := Apply(s, step);
    var states', steps' := states + [s'], steps + [step];
    forall i | 0 <= i < |steps'| ensures StepAt(states', steps', i) && AllowedAt(setting, states', steps', i) {
      if i < |steps| {
        assert StepAt(states, steps, i) && AllowedAt(setting, states, steps, i);
      }
    }
    assert AllowedRun(setting, states', steps') && states'[|steps'|] == s';
  }

  lemma Fresh(setting: Setting, n: nat) returns (s: System)
    requires n > 0
    ensures Reachable(setting, s) && Initial(s) && |s.nodes| == n && forall p :: IsNode(s, p) ==>
            s.nodes[p] == InitialNode(n, p).(leaderId := 0)
  {
    s := System(seq(n, p => InitialNode(n, p).(leaderId := 0)), map[], map[], {}, map[], {});
    assert AllowedRun(setting, [s], []) && [s][0] == s;
  }

  /** The rest of a broadcast loop. */
  lemma SendAll(setting: Setting, s: System, p: int) returns (s': System)
    requires Reachable(setting, s) && IsNode(s, p) && s.nodes[p].client.Broadcasting?
             && (!setting.OneProposer? ==> IsNode(s, 0))
    ensures Reachable(setting, s')
    ensures var node := s.nodes[p];
      && s' == s.(nodes := s'.nodes, consensus := s'.consensus)
      && s'.nodes == s.nodes[p := node.(client := AfterBroadcast(node.client.value, node.client.message))]
      && forall a, b {:trigger Queue(s'.consensus, a, b)} ::
           Queue(s'.consensus, a, b) ==
             if a == p && node.client.next <= b < |s.nodes| && b != p && b in node.alive
             then Queue(s.consensus, a, b) + [node.client.message] else Queue(s.consensus, a, b)
    decreases if s.nodes[p].client.next < |s.nodes| then |s.nodes| - s.nodes[p].client.next else 0
  {
    s' := Next(setting, s, SendNext(p));
    SendChannels(s, p);
    if s.nodes[p].client.next < |s.nodes| {
      s' := SendAll(setting, s', p);
    }
  }
}
