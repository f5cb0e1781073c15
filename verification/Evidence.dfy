/** What the HTTP parsers learn of where a connection goes, and how a request counts
    towards its host. */
module Evidence {
  import opened Prelude

  const MAX_HTTP_HOSTS := 256

  datatype Evidence = Evidence(hosts: map<string, nat>, proxy: Option<string>, grpc: bool)

  function Requests(e: Evidence, host: string): nat { if host in e.hosts then e.hosts[host] else 0 }

  /** Counts a request for `host`; None at the limit of distinct hosts. */
  function CountHost(e: Evidence, host: string): Option<Evidence> {
    if host == "" then Some(e)
    else if Requests(e, host) == 0 && |e.hosts| >= MAX_HTTP_HOSTS then None
    else Some(e.(hosts := e.hosts[host := Requests(e, host) + 1]))
  }

  // ----- Counting many -----

  function Named(hosts: seq<string>): set<string> { set h | h in hosts && h != "" }

  /** The evidence lists hosts that were counted, and has room for those to come. */
  ghost predicate HasRoom(e: Evidence, hosts: seq<string>) {
    (forall h :: h in e.hosts ==> e.hosts[h] > 0) && |e.hosts.Keys + Named(hosts)| <= 256
  }

  /** Every host is counted as often as it occurs among `hosts`, and nothing else is. */
  ghost predicate CountsEach(e: Evidence, hosts: seq<string>, after: Evidence) {
    && after.hosts.Keys == e.hosts.Keys + Named(hosts)
    && forall h :: Requests(after, h) == Requests(e, h) + if h == "" then 0 else multiset(hosts)[h]
  }

  lemma NamedFirst(hosts: seq<string>)
    requires hosts != []
    ensures Named(hosts) == Named(hosts[1..]) + Named([hosts[0]])
    ensures multiset(hosts) == multiset{hosts[0]} + multiset(hosts[1..])
  {
    assert hosts == [hosts[0]] + hosts[1..];
  }

  lemma CountedHosts(e: Evidence, host: string)
    requires CountHost(e, host).Some?
    ensures var after := CountHost(e, host).value;
            && after == e.(hosts := after.hosts) && after.hosts.Keys == e.hosts.Keys + Named([host])
            && (forall h :: Requests(after, h) == Requests(e, h) + if h == host && h != "" then 1 else 0)
            && ((forall h :: h in e.hosts ==> e.hosts[h] > 0) ==> forall h :: h in after.hosts ==> after.hosts[h] > 0)
  {
  }

  lemma SubsetCount<T>(a: set<T>, b: set<T>)
    requires a <= b
    ensures |a| <= |b| && (a != b ==> |a| < |b|)
  {
    assert b == a + (b - a);
    if a != b { assert b - a != {}; }
  }

  /** A host is refused only if it is new and the list is full. */
  lemma RoomForHost(e: Evidence, host: string, all: set<string>)
    requires (forall h :: h in e.hosts ==> e.hosts[h] > 0)
    requires e.hosts.Keys + Named([host]) <= all && |all| <= 256
    ensures CountHost(e, host).Some?
  {
    SubsetCount(e.hosts.Keys, all);
    if host != "" && Requests(e, host) == 0 { assert host !in e.hosts.Keys && host in Named([host]); }
  }

  lemma FirstCounts(e: Evidence, hosts: seq<string>)
    requires hosts != [] && HasRoom(e, hosts)
    ensures CountHost(e, hosts[0]).Some? && HasRoom(CountHost(e, hosts[0]).value, hosts[1..])
  {
    NamedFirst(hosts);
    RoomForHost(e, hosts[0], e.hosts.Keys + Named(hosts));
    CountedHosts(e, hosts[0]);
    var after := CountHost(e, hosts[0]).value;
    assert after.hosts.Keys + Named(hosts[1..]) == e.hosts.Keys + Named(hosts);
  }

  lemma CountsFirst(e: Evidence, hosts: seq<string>, after: Evidence)
    requires hosts != [] && CountHost(e, hosts[0]).Some?
    requires CountsEach(CountHost(e, hosts[0]).value, hosts[1..], after)
    ensures CountsEach(e, hosts, after)
  {
    NamedFirst(hosts);
    CountedHosts(e, hosts[0]);
  }

  lemma NamedAll(a: seq<string>, b: seq<string>)
    ensures Named(a + b) == Named(a) + Named(b) && multiset(a + b) == multiset(a) + multiset(b)
  {
  }

  /** Room for all is room for the first, and then for the others. */
  lemma RoomSplits(e: Evidence, a: seq<string>, b: seq<string>, middle: Evidence)
    requires HasRoom(e, a + b)
    ensures HasRoom(e, a) && (CountsEach(e, a, middle) ==> HasRoom(middle, b))
  {
    NamedAll(a, b);
    SubsetCount(e.hosts.Keys + Named(a), e.hosts.Keys + Named(a + b));
    if CountsEach(e, a, middle) {
      assert middle.hosts.Keys + Named(b) == e.hosts.Keys + Named(a + b);
      forall h | h in middle.hosts ensures middle.hosts[h] > 0 { CountedIsPositive(e, a, middle, h); }
    }
  }

  lemma CountedIsPositive(e: Evidence, hosts: seq<string>, after: Evidence, h: string)
    requires (forall k :: k in e.hosts ==> e.hosts[k] > 0) && CountsEach(e, hosts, after) && h in after.hosts
    ensures after.hosts[h] > 0
  {
    assert h in e.hosts || h in Named(hosts);
    assert Requests(after, h) >= Requests(e, h);
  }

  lemma CountsJoin(e: Evidence, a: seq<string>, middle: Evidence, b: seq<string>, after: Evidence)
    requires CountsEach(e, a, middle) && CountsEach(middle, b, after)
    ensures CountsEach(e, a + b, after)
  {
    NamedAll(a, b);
  }
}
