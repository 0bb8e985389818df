/** `ClustersConflict`: do any two systems belong to different clusters of the same service? */
module ClustersConflicts {
  import opened Services
  import opened FiniteSets

  // The members of a cluster with their addresses; what each system reports for each service.
  type Record = map<string, string>
  type Systems = map<string, map<Service, Record>>

  /** A missing service has no members. */
  function RecordOf(systems: Systems, p: string, s: Service): Record
    requires p in systems
  {
    if s in systems[p] then systems[p][s] else map[]
  }

  predicate Clustered(systems: Systems, p: string, s: Service)
    requires p in systems
  {
    |RecordOf(systems, p, s)| > 0
  }

  /** Go's map access: a missing name reads as the empty address. */
  function Address(cluster: Record, name: string): string {
    if name in cluster then cluster[name] else ""
  }

  /** What the comparison with the first encountered cluster tests. */
  ghost predicate Same(cluster: Record, record: Record) {
    (forall name :: name in record ==> Address(cluster, name) == record[name]) && |cluster| == |record|
  }

  ghost predicate HasAddresses(record: Record) {
    forall name :: name in record ==> record[name] != ""
  }

  ghost predicate AllHaveAddresses(systems: Systems, services: set<Service>) {
    forall p, s :: p in systems && s in services ==> HasAddresses(RecordOf(systems, p, s))
  }

  /** For records with addresses a sub-map of equal size is equal. */
  lemma SameIsEqual(cluster: Record, record: Record)
    requires HasAddresses(record)
    ensures Same(cluster, record) <==> cluster == record
  {
    if Same(cluster, record) {
      assert forall name :: name in record ==> Address(cluster, name) != "";
      assert |cluster.Keys| == |cluster| && |record.Keys| == |record|;
      SubsetSize(record.Keys, cluster.Keys);
    }
  }

  lemma {:induction false} LongerThanAll(names: set<string>) returns (n: nat)
    ensures forall name :: name in names ==> |name| < n
    decreases names
  {
    n := 0;
    if names != {} {
      var name :| name in names;
      n := LongerThanAll(names - {name});
      if n <= |name| { n := |name| + 1; }
    }
  }

  /** Another cluster that passes: the member without an address is replaced by a stranger without one. */
  lemma StrangerPasses(record: Record, name: string, stranger: string)
    requires name in record && record[name] == "" && stranger !in record
    ensures var other := (record - {name})[stranger := ""];
            Same(other, record) && other != record
  {
    var other := (record - {name})[stranger := ""];
    assert other.Keys == record.Keys - {name} + {stranger};
    assert |record| == |record.Keys| && |other| == |other.Keys|;
    assert stranger in other;
  }

  /** The comparison tells a record from every other cluster exactly if all its members have addresses. */
  lemma DistinguishedIff(record: Record)
    ensures HasAddresses(record) <==> forall cluster :: Same(cluster, record) ==> cluster == record
  {
    if HasAddresses(record) {
      forall cluster | Same(cluster, record) ensures cluster == record { SameIsEqual(cluster, record); }
    } else {
      var name :| name in record && record[name] == "";
      var n := LongerThanAll(record.Keys);
      var stranger := seq(n, i => 'x');
      assert stranger !in record.Keys;
      StrangerPasses(record, name, stranger);
    }
  }

  /** All systems in a cluster of the service agree with `first`. */
  ghost predicate AgreesWith(systems: Systems, seen: set<string>, s: Service, first: Option<Record>)
    requires seen <= systems.Keys
  {
    forall p :: p in seen && Clustered(systems, p, s) ==> first.Some? && Same(first.value, RecordOf(systems, p, s))
  }

  /** Two of the systems are in clusters of the service, but not in the same one. */
  ghost predicate Conflict(systems: Systems, s: Service) {
    exists p, q :: p in systems && q in systems && Clustered(systems, p, s) && Clustered(systems, q, s)
                   && RecordOf(systems, p, s) != RecordOf(systems, q, s)
  }

  ghost predicate Found(systems: Systems, first: map<Service, Record>) {
    forall s :: s in first ==> exists p :: p in systems && Clustered(systems, p, s) && RecordOf(systems, p, s) == first[s]
  }

  function FirstOf(first: map<Service, Record>, s: Service): Option<Record> {
    if s in first then Some(first[s]) else None
  }

  /** Compares one record with the first one of its service. */
  method CompareRecords(cluster: Record, record: Record) returns (same: bool)
    ensures same == Same(cluster, record)
  {
    var todo := record.Keys;
    while todo != {}
      invariant todo <= record.Keys
      invariant forall name :: name in record && name !in todo ==> Address(cluster, name) == record[name]
    {
      var name :| name in todo;
      todo := todo - {name};
      if Address(cluster, name) != record[name] { return false; }
    }
    same := |cluster| == |record|;
  }

  /** Before the first encounter no system is in a cluster of the service. */
  lemma Encountered(systems: Systems, seen: set<string>, s: Service, p: string)
    requires seen <= systems.Keys && p in systems && AgreesWith(systems, seen, s, None)
    ensures AgreesWith(systems, seen + {p}, s, Some(RecordOf(systems, p, s)))
  {
    assert Same(RecordOf(systems, p, s), RecordOf(systems, p, s));
  }

  /** Compares one system's record of one service with the first encountered one, or makes it the first. */
  method CheckService(systems: Systems, s: Service, p: string, first: map<Service, Record>, ghost seen: set<string>)
    returns (same: bool, first': map<Service, Record>)
    requires p in systems && seen <= systems.Keys && Found(systems, first)
             && AgreesWith(systems, seen, s, FirstOf(first, s))
    ensures Found(systems, first') && forall t :: t != s ==> FirstOf(first', t) == FirstOf(first, t)
    ensures same ==> AgreesWith(systems, seen + {p}, s, FirstOf(first', s))
    ensures !same ==> s in first' && Clustered(systems, p, s) && !Same(first'[s], RecordOf(systems, p, s))
  {
    first' := first;
    same := true;
    if Clustered(systems, p, s) {
      if s !in first {
        Encountered(systems, seen, s, p);
        first' := first[s := RecordOf(systems, p, s)];
      } else {
        same := CompareRecords(first[s], RecordOf(systems, p, s));
      }
    }
  }

  /** Looks at the records of one system. */
  method CheckSystem(systems: Systems, services: set<Service>, p: string, first: map<Service, Record>,
                     ghost seen: set<string>)
    returns (conflict: Option<Service>, first': map<Service, Record>)
    requires p in systems && seen <= systems.Keys && Found(systems, first)
    requires forall s :: s in services ==> AgreesWith(systems, seen, s, FirstOf(first, s))
    ensures Found(systems, first')
    ensures conflict == None ==> forall s :: s in services ==> AgreesWith(systems, seen + {p}, s, FirstOf(first', s))
    ensures conflict.Some? ==>
              var s := conflict.value;
              s in services && s in first' && Clustered(systems, p, s) && !Same(first'[s], RecordOf(systems, p, s))
  {
    first' := first;
    var todo := services;
    while todo != {}
      invariant todo <= services && Found(systems, first')
      invariant forall s :: s in services ==>
                  if s in todo then AgreesWith(systems, seen, s, FirstOf(first', s))
                  else AgreesWith(systems, seen + {p}, s, FirstOf(first', s))
    {
      var s :| s in todo;
      todo := todo - {s};
      var same;
      same, first' := CheckService(systems, s, p, first', seen);
      if !same { return Some(s), first'; }
    }
    conflict := None;
  }

  /**
   A service is named only if it has a conflict, and with addresses in all records if any service has one. No conflict
   means that every record passes the comparison with one of its service.
   */
  method ClustersConflict(systems: Systems, services: set<Service>) returns (conflict: Option<Service>)
    ensures conflict == None ==>
              exists first :: Found(systems, first)
                && forall s :: s in services ==> AgreesWith(systems, systems.Keys, s, FirstOf(first, s))
    ensures AllHaveAddresses(systems, services) ==>
              (conflict == None <==> forall s :: s in services ==> !Conflict(systems, s))
    ensures conflict.Some? ==> conflict.value in services && Conflict(systems, conflict.value)
  {
    var first: map<Service, Record> := map[];
    var seen: set<string> := {};
    while seen != systems.Keys
      invariant seen <= systems.Keys && Found(systems, first)
      invariant forall s :: s in services ==> AgreesWith(systems, seen, s, FirstOf(first, s))
      decreases systems.Keys - seen
    {
      var p :| p in systems && p !in seen;
      conflict, first := CheckSystem(systems, services, p, first, seen);
      if conflict.Some? {
        DifferentClusters(systems, first, conflict.value, p);
        return;
      }
      seen := seen + {p};
    }
    conflict := None;
    NoConflict(systems, services, first);
  }

  lemma DifferentClusters(systems: Systems, first: map<Service, Record>, s: Service, p: string)
    requires Found(systems, first) && s in first && p in systems
    requires Clustered(systems, p, s) && !Same(first[s], RecordOf(systems, p, s))
    ensures Conflict(systems, s)
  {
    var q :| q in systems && Clustered(systems, q, s) && RecordOf(systems, q, s) == first[s];
    assert Same(first[s], first[s]);
  }

  lemma NoConflict(systems: Systems, services: set<Service>, first: map<Service, Record>)
    requires forall s :: s in services ==> AgreesWith(systems, systems.Keys, s, FirstOf(first, s))
    ensures AllHaveAddresses(systems, services) ==> forall s :: s in services ==> !Conflict(systems, s)
  {
    if AllHaveAddresses(systems, services) {
      forall s, p, q | s in services && p in systems && q in systems && Clustered(systems, p, s) && Clustered(systems, q, s)
        ensures RecordOf(systems, p, s) == RecordOf(systems, q, s)
      {
        assert AgreesWith(systems, systems.Keys, s, FirstOf(first, s));
        assert HasAddresses(RecordOf(systems, p, s)) && HasAddresses(RecordOf(systems, q, s));
        SameIsEqual(first[s], RecordOf(systems, p, s));
        SameIsEqual(first[s], RecordOf(systems, q, s));
      }
    }
  }
}
