/** Names of cluster secrets: printed as cluster, dash, purpose and parsed back at the last dash. */
module SecretNames {
  const Kubeconfig := "kubeconfig"
  const ClusterCA := "ca"
  const ClientClusterCA := "cca"
  const EtcdCA := "etcd"
  const ServiceAccount := "sa"
  const FrontProxyCA := "proxy"
  const APIServerEtcdClient := "apiserver-etcd-client"

  /** The purposes the parser knows; ClientClusterCA is not among them. */
  const AllSecretPurposes: seq<string> :=
    [Kubeconfig, ClusterCA, EtcdCA, ServiceAccount, FrontProxyCA, APIServerEtcdClient]

  datatype Parsed = Error | Names(cluster: string, purpose: string)

  function Name(cluster: string, purpose: string): string {
    cluster + "-" + purpose
  }

  /** The position of the last dash, or -1. */
  function LastDash(s: string): (r: int)
    ensures -1 <= r < |s|
    ensures r >= 0 ==> s[r] == '-'
    ensures forall k :: r < k < |s| ==> s[k] != '-'
  {
    if s == "" then -1
    else if s[|s| - 1] == '-' then |s| - 1
    else LastDash(s[..|s| - 1])
  }

  function ParseSecretName(name: string): Parsed {
    var pos := LastDash(name);
    if pos == -1 then Error
    else if name[pos + 1..] in AllSecretPurposes then Names(name[..pos], name[pos + 1..])
    else Error
  }

  /** Every accepted name is the name of its result, which has a listed purpose without a dash. */
  lemma AcceptedNames(name: string)
    ensures ParseSecretName(name).Names? ==>
              var r := ParseSecretName(name);
              name == Name(r.cluster, r.purpose) && r.purpose in AllSecretPurposes && '-' !in r.purpose
  {
  }

  lemma LastDashOfName(cluster: string, purpose: string)
    requires '-' !in purpose
    ensures LastDash(Name(cluster, purpose)) == |cluster|
  {
    var n := Name(cluster, purpose);
    assert n[|cluster|] == '-';
  }

  /** A name parses back exactly when its purpose is listed and has no dash, for every cluster name. */
  lemma RoundTripIff(cluster: string, purpose: string)
    ensures ParseSecretName(Name(cluster, purpose)) == Names(cluster, purpose)
            <==> purpose in AllSecretPurposes && '-' !in purpose
  {
    AcceptedNames(Name(cluster, purpose));
    if '-' !in purpose {
      var n := Name(cluster, purpose);
      LastDashOfName(cluster, purpose);
      assert n[..|cluster|] == cluster && n[|cluster| + 1..] == purpose;
    }
  }

  /** So a string is accepted exactly when it is the name of some cluster and such a purpose. */
  lemma AcceptedIff(name: string)
    ensures ParseSecretName(name).Names?
            <==> exists c, p :: p in AllSecretPurposes && '-' !in p && name == Name(c, p)
  {
    AcceptedNames(name);
    if c, p :| p in AllSecretPurposes && '-' !in p && name == Name(c, p) {
      RoundTripIff(c, p);
    }
  }

  lemma DashFree(purpose: string)
    requires purpose in AllSecretPurposes && purpose != APIServerEtcdClient
    ensures '-' !in purpose
  {
  }

  /** The purposes that do parse back: all listed ones but one. */
  lemma ListedRoundTrip(cluster: string, purpose: string)
    requires purpose in AllSecretPurposes && purpose != APIServerEtcdClient
    ensures ParseSecretName(Name(cluster, purpose)) == Names(cluster, purpose)
  {
    DashFree(purpose);
    RoundTripIff(cluster, purpose);
  }

  /** That is: the kubeconfig, the two authorities, the service account and the front proxy. */
  lemma NamedRoundTrip(cluster: string)
    ensures ParseSecretName(Name(cluster, "kubeconfig")) == Names(cluster, "kubeconfig")
    ensures ParseSecretName(Name(cluster, "ca")) == Names(cluster, "ca")
    ensures ParseSecretName(Name(cluster, "etcd")) == Names(cluster, "etcd")
    ensures ParseSecretName(Name(cluster, "sa")) == Names(cluster, "sa")
    ensures ParseSecretName(Name(cluster, "proxy")) == Names(cluster, "proxy")
  {
    var all := AllSecretPurposes;
    assert all[0] == Kubeconfig && all[1] == ClusterCA && all[2] == EtcdCA && all[3] == ServiceAccount && all[4] == FrontProxyCA;
    ListedRoundTrip(cluster, Kubeconfig);
    ListedRoundTrip(cluster, ClusterCA);
    ListedRoundTrip(cluster, EtcdCA);
    ListedRoundTrip(cluster, ServiceAccount);
    ListedRoundTrip(cluster, FrontProxyCA);
  }

  lemma Shortest(p: string)
    requires p in AllSecretPurposes
    ensures |p| != 3 && p != "client"
  {
  }

  /** Two purposes never parse, whatever the cluster: one has dashes, the other is not listed. */
  lemma Exceptions(cluster: string)
    ensures ParseSecretName(Name(cluster, APIServerEtcdClient)) == Error
    ensures ParseSecretName(Name(cluster, ClientClusterCA)) == Error
  {
    LastDashOfName(cluster, ClientClusterCA);
    var cca := Name(cluster, ClientClusterCA);
    assert cca[|cluster| + 1..] == ClientClusterCA;
    if ClientClusterCA in AllSecretPurposes {
      Shortest(ClientClusterCA);
    }
    assert APIServerEtcdClient == "apiserver-etcd" + "-" + "client";
    var prefix := cluster + "-" + "apiserver-etcd";
    var n := Name(cluster, APIServerEtcdClient);
    assert n == Name(prefix, "client");
    LastDashOfName(prefix, "client");
    assert n[|prefix| + 1..] == "client";
    if "client" in AllSecretPurposes {
      Shortest("client");
    }
  }
}
