/** The container-wide service lease: one key with a time to live, shared by all workers. */
module ServiceLease {
  import opened Prelude

  const TTL: int := 30

  /** The stored owner and the moment its key expires. */
  datatype Holder = Holder(token: string, expires: int)

  /** The key as readers see it at a moment. */
  function Live(key: Option<Holder>, now: int): Option<Holder> {
    if key.Some? && now < key.value.expires then key else None
  }

  predicate Owns(key: Option<Holder>, now: int, token: string) {
    Live(key, now).Some? && key.value.token == token
  }

  datatype Call = Acquire(token: string) | Refresh(token: string) | Release(token: string)

  /** Whether a call is granted: acquiring needs the key free, the others need to own it. */
  predicate Granted(key: Option<Holder>, now: int, call: Call) {
    match call
    case Acquire(_) => Live(key, now).None?
    case Refresh(token) => Owns(key, now, token)
    case Release(token) => Owns(key, now, token)
  }

  function After(key: Option<Holder>, now: int, call: Call): Option<Holder> {
    if !Granted(key, now, call) then Live(key, now)
    else match call
      case Acquire(token) => Some(Holder(token, now + TTL))
      case Refresh(token) => Some(Holder(token, now + TTL))
      case Release(_) => None
  }

  /** The shared key. Workers call with the current time. */
  class RedisKey {
    var holder: Option<Holder>

    constructor ()
      ensures holder == None
    {
      holder := None;
    }

    /** SET with NX and EX. */
    method Acquire(now: int, token: string) returns (ok: bool)
      modifies this
      ensures ok <==> Granted(old(holder), now, Call.Acquire(token))
      ensures holder == After(old(holder), now, Call.Acquire(token))
    {
      Expire(now);
      if holder.Some? { return false; }
      holder := Some(Holder(token, now + TTL));
      return true;
    }

    /** Compare and extend. */
    method Refresh(now: int, token: string) returns (ok: bool)
      modifies this
      ensures ok <==> Granted(old(holder), now, Call.Refresh(token))
      ensures holder == After(old(holder), now, Call.Refresh(token))
    {
      Expire(now);
      if holder.None? || holder.value.token != token { return false; }
      holder := Some(Holder(token, now + TTL));
      return true;
    }

    /** Compare and delete. */
    method Release(now: int, token: string)
      modifies this
      ensures holder == After(old(holder), now, Call.Release(token))
    {
      Expire(now);
      if holder.Some? && holder.value.token == token { holder := None; }
    }

    method Expire(now: int)
      modifies this
      ensures holder == Live(old(holder), now)
    {
      if holder.Some? && holder.value.expires <= now { holder := None; }
    }
  }

  // ----- Runs -----

  datatype Event = Event(time: int, call: Call)

  /** A period of ownership: from its acquisition to its release, or to the expiry its last refresh set. */
  datatype Tenure = Tenure(token: string, since: int, until: int)

  /** The key after some calls. */
  function KeyAfter(events: seq<Event>): Option<Holder> {
    if events == [] then None
    else
      var e := events[|events| - 1];
      After(KeyAfter(events[..|events| - 1]), e.time, e.call)
  }

  /** What each caller may conclude from its granted calls. */
  function Tenures(events: seq<Event>): seq<Tenure> {
    if events == [] then []
    else
      var e, before := events[|events| - 1], events[..|events| - 1];
      Logged(KeyAfter(before), Tenures(before), e)
  }

  function Ending(log: seq<Tenure>, until: int): seq<Tenure> {
    if log == [] then [] else log[|log| - 1 := log[|log| - 1].(until := until)]
  }

  /** Calls in order of time; several may come at one moment. */
  predicate Timed(events: seq<Event>) {
    forall i, j :: 0 <= i < j < |events| ==> events[i].time <= events[j].time
  }

  predicate Disjoint(log: seq<Tenure>) {
    forall i, j :: 0 <= i < j < |log| ==> log[i].until <= log[j].since
  }

  /** The key belongs to the last tenure; once it is gone, that tenure has ended. */
  predicate Accounted(key: Option<Holder>, log: seq<Tenure>, now: int) {
    && (key.Some? ==> log != [] && log[|log| - 1].token == key.value.token && log[|log| - 1].until == key.value.expires)
    && (key.None? && log != [] ==> log[|log| - 1].until <= now)
  }

  /** Tenures in order, none beginning after now, the key belonging to the last. */
  predicate Orderly(key: Option<Holder>, log: seq<Tenure>, now: int) {
    && Disjoint(log) && Accounted(key, log, now)
    && forall i :: 0 <= i < |log| ==> log[i].since <= log[i].until && log[i].since <= now
  }

  function Logged(key: Option<Holder>, log: seq<Tenure>, e: Event): seq<Tenure> {
    if !Granted(key, e.time, e.call) then log
    else match e.call
      case Acquire(token) => log + [Tenure(token, e.time, e.time + TTL)]
      case Refresh(_) => Ending(log, e.time + TTL)
      case Release(_) => Ending(log, e.time)
  }

  lemma CallOrderly(key: Option<Holder>, log: seq<Tenure>, e: Event, now: int)
    requires Orderly(key, log, e.time) && e.time <= now
    ensures Orderly(After(key, e.time, e.call), Logged(key, log, e), now)
  {
    if Granted(key, e.time, e.call) && !e.call.Acquire? {
      assert forall i :: 0 <= i < |log| - 1 ==> Logged(key, log, e)[i] == log[i];
    }
  }

  /** In any timed interleaving of any workers' calls the tenures follow one another without overlap. */
  lemma {:induction false} TenuresAreDisjoint(events: seq<Event>, now: int)
    requires Timed(events) && (events != [] ==> events[|events| - 1].time <= now)
    ensures Disjoint(Tenures(events)) && Orderly(KeyAfter(events), Tenures(events), now)
  {
    if events != [] {
      var before, e := events[..|events| - 1], events[|events| - 1];
      TenuresAreDisjoint(before, e.time);
      CallOrderly(KeyAfter(before), Tenures(before), e, now);
      assert Tenures(events) == Logged(KeyAfter(before), Tenures(before), e);
    }
  }

  /** After any run, a token owns the key exactly if the last tenure is its own and not over. */
  lemma OwnershipIsTenure(events: seq<Event>, now: int, token: string)
    requires Timed(events) && (events != [] ==> events[|events| - 1].time <= now)
    ensures Owns(KeyAfter(events), now, token) <==>
      var log := Tenures(events); log != [] && log[|log| - 1].token == token && now < log[|log| - 1].until
  {
    TenuresAreDisjoint(events, now);
  }

  /** A call by anyone but the owner leaves another's lease alone. */
  lemma StaleCallChangesNothing(key: Option<Holder>, now: int, call: Call, owner: string)
    requires Owns(key, now, owner) && call.token != owner
    ensures After(key, now, call) == key
  {
  }
}
