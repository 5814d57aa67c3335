/** Singleton: a database handle created lazily by the first `getInstance` call and shared by
    every later one. */
module Singleton {
  import opened Outcomes

  class DatabaseInstance {
    /** Written only by the constructor, so fixed for the life of the instance. */
    const host: string
    const port: string

    /** Private in PHP: reached only through `SingletonSlot.GetInstance`. */
    constructor (host: string, port: string)
      ensures this.host == host && this.port == port
    {
      this.host := host;
      this.port := port;
    }

    /** Unserialising an instance always throws. */
    method Wakeup() returns (r: Result<()>)
      ensures r == Thrown(Exception("Exception", "Cannot unserialize a singleton."))
    {
      r := Thrown(Exception("Exception", "Cannot unserialize a singleton."));
    }
  }

  /** The class's static `$instance` property: absent until the first request, then one fixed
      instance for ever. */
  class SingletonSlot {
    var instance: DatabaseInstance?

    constructor ()
      ensures instance == null
    {
      instance := null;
    }

    /** The first call creates the instance from its arguments; every later call returns that
        same instance and ignores its arguments. */
    method GetInstance(host: string, port: string) returns (db: DatabaseInstance)
      modifies this
      ensures old(instance) == null ==> fresh(db) && db.host == host && db.port == port
      ensures old(instance) != null ==> db == old(instance)
      ensures instance == db
    {
      if instance == null {
        instance := new DatabaseInstance(host, port);
      }
      db := instance;
    }
  }

  /** Two requests with different arguments: both get the same instance, which keeps the first
      request's host and port. */
  method FirstRequestWins(host1: string, port1: string, host2: string, port2: string)
    returns (same: bool, host: string, port: string)
    ensures same && host == host1 && port == port1
  {
    var slot := new SingletonSlot();
    var first := slot.GetInstance(host1, port1);
    var second := slot.GetInstance(host2, port2);
    same := first == second;
    host, port := second.host, second.port;
  }
}
