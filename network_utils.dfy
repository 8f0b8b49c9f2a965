/**
 * The reachability watcher (utils/NetworkUtils.kt `retryWhenNetworkAvailable`, and the
 * platform connectivity service behind it), reduced to its registration contract: the
 * live registrations, each holding the callback it will run once the network is back.
 */
module NetworkUtils {
  import opened Wrappers

  /** Identifies one registered network callback. */
  type Handle = nat

  /**
   * The connectivity service as seen by the application. `available` is false when the
   * context has no connectivity service; `live` maps each registered handle to the
   * `onReconnect` action it captured; `next` is the next handle to hand out.
   */
  datatype Registry<C> = Registry(available: bool, live: map<Handle, C>, next: Handle)
  {
    /** Handles in use are below `next`, and nothing is registered without a service. */
    ghost predicate Valid()
    {
      && (forall h | h in live :: h < next)
      && (!available ==> live == map[])
    }
  }

  /** A service with nothing registered yet. */
  function Connectivity<C>(available: bool): (r: Registry<C>)
    ensures r.Valid()
    ensures r.available == available
    ensures r.live == map[]
  {
    Registry(available, map[], 0)
  }

  /** What registering produces: the new registry and the callback handle, if any. */
  datatype Registration<C> = Registration(registry: Registry<C>, handle: Option<Handle>)

  /**
   * `retryWhenNetworkAvailable`: without a connectivity service it registers nothing and
   * returns null; otherwise it registers a new callback capturing `onReconnect` and
   * returns it.
   */
  function Register<C>(r: Registry<C>, onReconnect: C): Registration<C>
  {
    if !r.available then Registration(r, None)
    else Registration(r.(live := r.live[r.next := onReconnect], next := r.next + 1), Some(r.next))
  }

  /** `unregisterNetworkCallback`: the handle is no longer live; unregistering a dead handle changes nothing. */
  function Unregister<C>(r: Registry<C>, h: Handle): Registry<C>
  {
    r.(live := r.live - {h})
  }

  /**
   * Registering with a service returns the next unused handle, which was not live and is
   * now bound to exactly `onReconnect`; that handle is never handed out again.
   */
  lemma RegisterFresh<C>(r: Registry<C>, onReconnect: C)
    requires r.Valid() && r.available
    ensures var reg := Register(r, onReconnect);
      && reg.handle == Some(r.next)
      && reg.handle.value !in r.live
      && reg.registry.next == r.next + 1
      && reg.registry.live == r.live[reg.handle.value := onReconnect]
      && reg.registry.available
      && reg.registry.Valid()
  {
  }

  /** Without a service, registering returns no handle and leaves the registry as it was. */
  lemma RegisterWithoutService<C>(r: Registry<C>, onReconnect: C)
    requires !r.available
    ensures Register(r, onReconnect) == Registration(r, None)
  {
  }

  /** Unregistering removes exactly the given handle and keeps the registry valid. */
  lemma UnregisterRemoves<C>(r: Registry<C>, h: Handle)
    requires r.Valid()
    ensures var r' := Unregister(r, h);
      && h !in r'.live
      && (forall g | g in r.live && g != h :: g in r'.live && r'.live[g] == r.live[g])
      && r'.live.Keys <= r.live.Keys
      && r'.Valid()
  {
  }

  /** Unregistering twice is unregistering once; unregistering a handle that is not live is a no-op. */
  lemma UnregisterIdempotent<C>(r: Registry<C>, h: Handle)
    ensures Unregister(Unregister(r, h), h) == Unregister(r, h)
    ensures h !in r.live ==> Unregister(r, h) == r
  {
  }
}
