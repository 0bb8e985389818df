/** The vocabulary shared by every other module: the four clustered services and an optional value. */
module Services {
  datatype Service = MicroCloud | MicroCeph | MicroOVN | LXD

  /** One value per service. */
  datatype PerService<T> = PerService(cloud: T, ceph: T, ovn: T, lxd: T) {
    function Of(s: Service): T {
      match s
      case MicroCloud => cloud
      case MicroCeph => ceph
      case MicroOVN => ovn
      case LXD => lxd
    }

    function With(s: Service, value: T): (r: PerService<T>)
      ensures r.Of(s) == value && forall t :: t != s ==> r.Of(t) == Of(t)
    {
      match s
      case MicroCloud => this.(cloud := value)
      case MicroCeph => this.(ceph := value)
      case MicroOVN => this.(ovn := value)
      case LXD => this.(lxd := value)
    }
  }

  // A disk as it is handed to MicroCeph.
  datatype Post = Post(path: string, wipe: bool, encrypt: bool)

  datatype Option<+T> = None | Some(value: T)

  // How a call to a remote service ends: a call that fails may have taken effect all the same.
  datatype Answer = Succeeds | Fails | FailsLate {
    predicate TakesEffect() {
      !Fails?
    }
  }
}

/** Facts about finite sets that Dafny does not volunteer. */
module FiniteSets {
  /** A subset is no larger, and a subset of the same size is the whole set. */
  lemma SubsetSize<T>(a: set<T>, b: set<T>)
    requires a <= b
    ensures |a| <= |b|
    ensures |a| == |b| ==> a == b
  {
    assert b == a + (b - a);
    assert |b| == |a| + |b - a|;
  }
}
