/**
 * The names of the cluster settings and the defaults the application puts
 * into its properties before reading the user's configuration.
 */
module ClusterProperties {

  const ClusterEnabled := "sonar.cluster.enabled"
  const ClusterCeDisabled := "sonar.cluster.ce.disabled"
  const ClusterSearchDisabled := "sonar.cluster.search.disabled"
  const ClusterSearchHosts := "sonar.cluster.search.hosts"
  const ClusterWebDisabled := "sonar.cluster.web.disabled"
  const ClusterHosts := "sonar.cluster.hosts"
  const ClusterPort := "sonar.cluster.port"
  const ClusterNetworkInterfaces := "sonar.cluster.networkInterfaces"
  const ClusterName := "sonar.cluster.name"
  const HazelcastLogLevel := "sonar.log.level.app.hazelcast"
  const ClusterWebLeader := "sonar.cluster.web.startupLeader"
  /** Shares the local endpoint of the Hazelcast member between processes. */
  const ClusterLocalEndpoint := "sonar.cluster.hazelcast.localEndPoint"
  /** Shares the UUID of the local Hazelcast member between processes. */
  const ClusterMemberUuid := "sonar.cluster.hazelcast.memberUUID"

  /** Every key constant, in declaration order. */
  const AllKeys: seq<string> := [
    ClusterEnabled, ClusterCeDisabled, ClusterSearchDisabled, ClusterSearchHosts,
    ClusterWebDisabled, ClusterHosts, ClusterPort, ClusterNetworkInterfaces,
    ClusterName, HazelcastLogLevel, ClusterWebLeader, ClusterLocalEndpoint, ClusterMemberUuid
  ]

  /** The nine settings putClusterDefaults writes, with their values. */
  const ClusterDefaults: map<string, string> := map[]
    [ClusterEnabled := "false"]
    [ClusterCeDisabled := "false"]
    [ClusterWebDisabled := "false"]
    [ClusterSearchDisabled := "false"]
    [ClusterName := "sonarqube"]
    [ClusterNetworkInterfaces := ""]
    [ClusterHosts := ""]
    [ClusterPort := "9003"]
    [HazelcastLogLevel := "WARN"]

  /** No two key constants are the same string. */
  lemma KeysDistinct()
    ensures forall i, j :: 0 <= i < j < |AllKeys| ==> AllKeys[i] != AllKeys[j]
  {
  }

  /** The nine defaulted keys are key constants. */
  lemma DefaultedKeys()
    ensures ClusterDefaults.Keys == {ClusterEnabled, ClusterCeDisabled, ClusterWebDisabled, ClusterSearchDisabled,
      ClusterName, ClusterNetworkInterfaces, ClusterHosts, ClusterPort, HazelcastLogLevel}
    ensures forall k :: k in ClusterDefaults ==> k in AllKeys
  {
  }

  /** Search hosts, web startup leader, local endpoint and member UUID get no default. */
  lemma KeysWithoutDefault()
    ensures ClusterSearchHosts !in ClusterDefaults && ClusterWebLeader !in ClusterDefaults
    ensures ClusterLocalEndpoint !in ClusterDefaults && ClusterMemberUuid !in ClusterDefaults
  {
    KeysDistinct();
  }

  /**
   * The properties after putClusterDefaults: each of the nine keys holds its
   * default, whatever it held before, and every other key is untouched.
   */
  function WithClusterDefaults(properties: map<string, string>): (r: map<string, string>)
    ensures r.Keys == properties.Keys + ClusterDefaults.Keys
    ensures forall k :: k in ClusterDefaults ==> r[k] == ClusterDefaults[k]
    ensures forall k :: k in properties && k !in ClusterDefaults ==> r[k] == properties[k]
  {
    properties + ClusterDefaults
  }

  /** Putting the defaults twice is putting them once. */
  lemma WithClusterDefaultsIdempotent(properties: map<string, string>)
    ensures WithClusterDefaults(WithClusterDefaults(properties)) == WithClusterDefaults(properties)
  {
    var once := WithClusterDefaults(properties);
    var twice := WithClusterDefaults(once);
    assert twice.Keys == once.Keys;
    forall k | k in once ensures twice[k] == once[k] {
      if k !in ClusterDefaults {
        assert twice[k] == once[k];
      }
    }
  }

  /** Two property maps that agree outside the nine keys agree once the defaults are in. */
  lemma WithClusterDefaultsOverwrites(a: map<string, string>, b: map<string, string>)
    requires forall k :: k !in ClusterDefaults ==> (k in a <==> k in b)
    requires forall k :: k in a && k !in ClusterDefaults ==> a[k] == b[k]
    ensures WithClusterDefaults(a) == WithClusterDefaults(b)
  {
    var ra := WithClusterDefaults(a);
    var rb := WithClusterDefaults(b);
    assert ra.Keys == rb.Keys;
    forall k | k in ra ensures ra[k] == rb[k] {
    }
  }

  /** java.util.Properties, as a map of strings that callers update in place. */
  class Properties {
    var entries: map<string, string>

    constructor(entries: map<string, string>)
      ensures this.entries == entries
    {
      this.entries := entries;
    }

    method Put(key: string, value: string)
      modifies this
      ensures entries == old(entries)[key := value]
    {
      entries := entries[key := value];
    }
  }

  /** Putting one more entry after a union puts it into the right-hand map. */
  lemma UnionThenPut(m: map<string, string>, d: map<string, string>, k: string, v: string)
    ensures (m + d)[k := v] == m + d[k := v]
  {
  }

  /** The nine puts, one after the other, add the defaults to the map. */
  lemma PutsAddDefaults(m: map<string, string>)
    ensures m[ClusterEnabled := "false"][ClusterCeDisabled := "false"][ClusterWebDisabled := "false"]
      [ClusterSearchDisabled := "false"][ClusterName := "sonarqube"][ClusterNetworkInterfaces := ""]
      [ClusterHosts := ""][ClusterPort := "9003"][HazelcastLogLevel := "WARN"] == m + ClusterDefaults
  {
    var d0: map<string, string> := map[];
    var d1 := d0[ClusterEnabled := "false"];
    var d2 := d1[ClusterCeDisabled := "false"];
    var d3 := d2[ClusterWebDisabled := "false"];
    var d4 := d3[ClusterSearchDisabled := "false"];
    var d5 := d4[ClusterName := "sonarqube"];
    var d6 := d5[ClusterNetworkInterfaces := ""];
    var d7 := d6[ClusterHosts := ""];
    var d8 := d7[ClusterPort := "9003"];
    assert m == m + d0;
    UnionThenPut(m, d0, ClusterEnabled, "false");
    UnionThenPut(m, d1, ClusterCeDisabled, "false");
    UnionThenPut(m, d2, ClusterWebDisabled, "false");
    UnionThenPut(m, d3, ClusterSearchDisabled, "false");
    UnionThenPut(m, d4, ClusterName, "sonarqube");
    UnionThenPut(m, d5, ClusterNetworkInterfaces, "");
    UnionThenPut(m, d6, ClusterHosts, "");
    UnionThenPut(m, d7, ClusterPort, "9003");
    UnionThenPut(m, d8, HazelcastLogLevel, "WARN");
  }

  /** putClusterDefaults: the nine puts, in the source's order. */
  method PutClusterDefaults(properties: Properties)
    modifies properties
    ensures properties.entries == WithClusterDefaults(old(properties.entries))
  {
    PutsAddDefaults(properties.entries);
    properties.Put(ClusterEnabled, "false");
    properties.Put(ClusterCeDisabled, "false");
    properties.Put(ClusterWebDisabled, "false");
    properties.Put(ClusterSearchDisabled, "false");
    properties.Put(ClusterName, "sonarqube");
    properties.Put(ClusterNetworkInterfaces, "");
    properties.Put(ClusterHosts, "");
    properties.Put(ClusterPort, "9003");
    properties.Put(HazelcastLogLevel, "WARN");
  }
}
