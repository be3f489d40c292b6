/**
 * The health of a node or of the cluster, and how HealthCheckerImpl folds
 * the results of its registered checks into one Health.
 *
 * A Health is a traffic-light status and the set of causes that explain
 * it. Statuses are ordered by their declaration order GREEN, YELLOW, RED;
 * "worse" means a higher ordinal.
 */
module Health {
  import opened Wrappers

  /** Health.Status, in declaration order. */
  datatype Status = GREEN | YELLOW | RED

  function Ordinal(s: Status): nat
  {
    match s
    case GREEN => 0
    case YELLOW => 1
    case RED => 2
  }

  /** Enum.name() of a status. */
  function StatusName(s: Status): string
  {
    match s
    case GREEN => "GREEN"
    case YELLOW => "YELLOW"
    case RED => "RED"
  }

  /** Distinct statuses have distinct ordinals and distinct names. */
  lemma OrdinalAndNameInjective(a: Status, b: Status)
    ensures Ordinal(a) == Ordinal(b) ==> a == b
    ensures StatusName(a) == StatusName(b) ==> a == b
  {
  }

  datatype Health = Health(status: Status, causes: set<string>)

  /** Health.GREEN: a green status with no cause; the identity of the fold. */
  const GreenHealth: Health := Health(GREEN, {})

  /** HealthReducer.worseOf: the status with the higher ordinal. */
  function WorseOf(left: Status, right: Status): (w: Status)
    ensures w == left || w == right
    ensures Ordinal(w) >= Ordinal(left) && Ordinal(w) >= Ordinal(right)
  {
    if left == right then left
    else if Ordinal(left) > Ordinal(right) then left
    else right
  }

  lemma WorseOfIdempotent(s: Status)
    ensures WorseOf(s, s) == s
  {
  }

  lemma WorseOfCommutative(a: Status, b: Status)
    ensures WorseOf(a, b) == WorseOf(b, a)
  {
  }

  lemma WorseOfAssociative(a: Status, b: Status, c: Status)
    ensures WorseOf(WorseOf(a, b), c) == WorseOf(a, WorseOf(b, c))
  {
  }

  /** GREEN is the identity of WorseOf: it never makes a status worse. */
  lemma WorseOfGreen(s: Status)
    ensures WorseOf(GREEN, s) == s && WorseOf(s, GREEN) == s
  {
  }

  /** What one application of HealthReducer.apply returns. */
  function Merge(left: Health, right: Health): Health
  {
    Health(WorseOf(left.status, right.status), left.causes + right.causes)
  }

  /** Health.GREEN is a two-sided identity of the merge. */
  lemma MergeIdentity(h: Health)
    ensures Merge(GreenHealth, h) == h && Merge(h, GreenHealth) == h
  {
    WorseOfGreen(h.status);
  }

  lemma MergeCommutative(a: Health, b: Health)
    ensures Merge(a, b) == Merge(b, a)
  {
    WorseOfCommutative(a.status, b.status);
  }

  lemma MergeAssociative(a: Health, b: Health, c: Health)
    ensures Merge(Merge(a, b), c) == Merge(a, Merge(b, c))
  {
    WorseOfAssociative(a.status, b.status, c.status);
  }

  /**
   * Stream.reduce(Health.GREEN, HealthReducer.INSTANCE) on a sequential
   * stream: a left fold from Health.GREEN, in encounter order.
   */
  function Reduce(hs: seq<Health>): Health
    decreases |hs|
  {
    if hs == [] then GreenHealth
    else Merge(Reduce(hs[..|hs| - 1]), hs[|hs| - 1])
  }

  /**
   * Reference definition of the reduced status: no input is worse than w,
   * and w is GREEN or the status of some input.
   */
  ghost predicate IsWorstStatus(w: Status, hs: seq<Health>)
  {
    && (forall h :: h in hs ==> Ordinal(h.status) <= Ordinal(w))
    && (w == GREEN || exists h :: h in hs && h.status == w)
  }

  /** Reference definition of the reduced causes: every cause of every input. */
  ghost function AllCauses(hs: seq<Health>): set<string>
  {
    set h, c | h in hs && c in h.causes :: c
  }

  /** At most one status is the worst of a given list. */
  lemma WorstStatusUnique(a: Status, b: Status, hs: seq<Health>)
    requires IsWorstStatus(a, hs) && IsWorstStatus(b, hs)
    ensures a == b
  {
    OrdinalAndNameInjective(a, b);
  }

  /**
   * Reducing no health at all gives Health.GREEN: a green status and no
   * cause.
   */
  lemma ReduceEmpty()
    ensures Reduce([]) == GreenHealth
    ensures Reduce([]).status == GREEN && Reduce([]).causes == {}
  {
  }

  /**
   * The fold computes the reference definitions: its status is the worst
   * of GREEN and every input status, and its causes are exactly the
   * causes of the inputs.
   */
  lemma {:induction false} ReduceIsWorstOfAll(hs: seq<Health>)
    ensures IsWorstStatus(Reduce(hs).status, hs)
    ensures Reduce(hs).causes == AllCauses(hs)
  {
    if hs != [] {
      var front, last := hs[..|hs| - 1], hs[|hs| - 1];
      assert hs == front + [last];
      ReduceIsWorstOfAll(front);
      var acc := Reduce(front);
      assert forall h :: h in hs <==> h in front || h == last;
      var w := WorseOf(acc.status, last.status);
      if w != GREEN {
        if w == last.status {
          assert last in hs;
        } else {
          var h :| h in front && h.status == acc.status;
          assert h in hs;
        }
      }
      assert AllCauses(hs) == AllCauses(front) + last.causes;
    }
  }

  /**
   * The reduced Health depends only on which healths were reduced, not on
   * their order: checks may be registered in any order.
   */
  lemma ReduceOrderIndependent(a: seq<Health>, b: seq<Health>)
    requires multiset(a) == multiset(b)
    ensures Reduce(a) == Reduce(b)
  {
    ReduceIsWorstOfAll(a);
    ReduceIsWorstOfAll(b);
    assert forall h :: h in a <==> h in b by {
      forall h ensures h in a <==> h in b {
        assert h in a <==> h in multiset(a);
        assert h in b <==> h in multiset(b);
      }
    }
    assert IsWorstStatus(Reduce(a).status, b);
    WorstStatusUnique(Reduce(a).status, Reduce(b).status, b);
    assert AllCauses(a) == AllCauses(b);
  }

  /** Health.Builder: a status that must be set before build, and a set of causes. */
  class HealthBuilder {
    var status: Option<Status>
    var causes: set<string>

    constructor ()
      ensures status == None && causes == {}
    {
      status := None;
      causes := {};
    }

    method Clear()
      modifies this
      ensures status == None && causes == {}
    {
      status := None;
      causes := {};
    }

    method SetStatus(s: Status)
      modifies this
      ensures status == Some(s) && causes == old(causes)
    {
      status := Some(s);
    }

    method AddCause(cause: string)
      modifies this
      ensures causes == old(causes) + {cause} && status == old(status)
    {
      causes := causes + {cause};
    }

    method Build() returns (h: Health)
      requires status.Some?
      ensures h == Health(status.value, causes)
    {
      h := Health(status.value, causes);
    }
  }

  /**
   * HealthReducer.INSTANCE: a singleton that reuses one builder for every
   * application.
   */
  class HealthReducer {
    const builder: HealthBuilder

    constructor ()
      ensures fresh(builder)
    {
      builder := new HealthBuilder();
    }

    /** Adds every cause of from to the builder, in the set's iteration order. */
    method AddAll(from: set<string>)
      modifies builder
      ensures builder.causes == old(builder.causes) + from
      ensures builder.status == old(builder.status)
    {
      var rest := from;
      while rest != {}
        invariant rest <= from
        invariant builder.causes == old(builder.causes) + (from - rest)
        invariant builder.status == old(builder.status)
        decreases rest
      {
        var cause :| cause in rest;
        builder.AddCause(cause);
        rest := rest - {cause};
      }
    }

    /**
     * HealthReducer.apply: whatever the builder held before, the result has
     * the worse of the two statuses and exactly the causes of both sides.
     */
    method Apply(left: Health, right: Health) returns (r: Health)
      modifies builder
      ensures r.status == WorseOf(left.status, right.status)
      ensures r.causes == left.causes + right.causes
      ensures r == Merge(left, right)
      ensures builder.status == Some(r.status) && builder.causes == r.causes
    {
      builder.Clear();
      builder.SetStatus(WorseOf(left.status, right.status));
      AddAll(left.causes);
      AddAll(right.causes);
      r := builder.Build();
    }
  }

  /** A node check or a cluster check, modelled by the Health it reports. */
  datatype HealthCheck = HealthCheck(result: Health)

  /** The healths reported by a list of checks, in registration order. */
  function Results(checks: seq<HealthCheck>): (r: seq<Health>)
    ensures |r| == |checks|
    ensures forall i :: 0 <= i < |checks| ==> r[i] == checks[i].result
  {
    seq(|checks|, i requires 0 <= i < |checks| => checks[i].result)
  }

  /** HealthCheckerImpl: its node checks and its cluster checks, both fixed at construction. */
  datatype HealthCheckerImpl = HealthCheckerImpl(nodeChecks: seq<HealthCheck>, clusterChecks: seq<HealthCheck>)

  /** The constructor taking node checks only. */
  function OfNodeChecks(nodeChecks: seq<HealthCheck>): HealthCheckerImpl
  {
    HealthCheckerImpl(nodeChecks, [])
  }

  /** The constructor taking cluster checks only. */
  function OfClusterChecks(clusterChecks: seq<HealthCheck>): HealthCheckerImpl
  {
    HealthCheckerImpl([], clusterChecks)
  }

  /** HealthCheckerImpl.checkNode: reduces the node checks only. */
  function CheckNode(checker: HealthCheckerImpl): Health
  {
    Reduce(Results(checker.nodeChecks))
  }

  /** HealthCheckerImpl.checkCluster: reduces the cluster checks only. */
  function CheckCluster(checker: HealthCheckerImpl): Health
  {
    Reduce(Results(checker.clusterChecks))
  }

  /**
   * checkNode returns the worst of GREEN and every node check's status,
   * with exactly the causes the node checks report.
   */
  lemma CheckNodeIsWorstOfChecks(checker: HealthCheckerImpl)
    ensures forall i :: 0 <= i < |checker.nodeChecks| ==>
      Ordinal(checker.nodeChecks[i].result.status) <= Ordinal(CheckNode(checker).status)
    ensures CheckNode(checker).status == GREEN ||
      exists i :: 0 <= i < |checker.nodeChecks| && checker.nodeChecks[i].result.status == CheckNode(checker).status
    ensures forall c :: c in CheckNode(checker).causes <==>
      exists i :: 0 <= i < |checker.nodeChecks| && c in checker.nodeChecks[i].result.causes
  {
    var hs := Results(checker.nodeChecks);
    ReduceIsWorstOfAll(hs);
    assert forall i :: 0 <= i < |checker.nodeChecks| ==> hs[i] in hs;
    forall c ensures c in CheckNode(checker).causes <==>
      exists i :: 0 <= i < |checker.nodeChecks| && c in checker.nodeChecks[i].result.causes
    {
      if c in CheckNode(checker).causes {
        var h :| h in hs && c in h.causes;
        var i :| 0 <= i < |hs| && hs[i] == h;
        assert c in checker.nodeChecks[i].result.causes;
      }
    }
  }

  /** checkCluster returns the worst of GREEN and every cluster check's status. */
  lemma CheckClusterIsWorstOfChecks(checker: HealthCheckerImpl)
    ensures forall i :: 0 <= i < |checker.clusterChecks| ==>
      Ordinal(checker.clusterChecks[i].result.status) <= Ordinal(CheckCluster(checker).status)
    ensures CheckCluster(checker).status == GREEN ||
      exists i :: 0 <= i < |checker.clusterChecks| && checker.clusterChecks[i].result.status == CheckCluster(checker).status
  {
    var hs := Results(checker.clusterChecks);
    ReduceIsWorstOfAll(hs);
    assert forall i :: 0 <= i < |checker.clusterChecks| ==> hs[i] in hs;
  }

  /** A checker built from node checks only is GREEN, without cause, on the cluster side. */
  lemma NodeOnlyCheckerClusterIsGreen(nodeChecks: seq<HealthCheck>)
    ensures CheckCluster(OfNodeChecks(nodeChecks)) == GreenHealth
  {
  }

  /** A checker built from cluster checks only is GREEN, without cause, on the node side. */
  lemma ClusterOnlyCheckerNodeIsGreen(clusterChecks: seq<HealthCheck>)
    ensures CheckNode(OfClusterChecks(clusterChecks)) == GreenHealth
  {
  }

  /** checkCluster never consults the node checks, and checkNode never consults the cluster checks. */
  lemma ChecksAreIndependent(a: HealthCheckerImpl, b: HealthCheckerImpl)
    ensures a.clusterChecks == b.clusterChecks ==> CheckCluster(a) == CheckCluster(b)
    ensures a.nodeChecks == b.nodeChecks ==> CheckNode(a) == CheckNode(b)
  {
  }
}
