/**
 The cache of the authenticator: a map guarded by a lock, with a call to the profile service outside of it,
 so that any number of requests interleave between their lock sections.

 The digest of a token and its session headers stands for the pair of them. Times are numbers; the clock
 does not go back.
*/
module AuthCache {
  import opened Wrappers

  type Time = int

  datatype Key = Key(token: string, session: string)

  datatype Entry = Entry(principal: string, expiresAt: Time)

  type Cache = map<Key, Entry>

  const MAX_TTL: int := 30_000
  const DEFAULT_TTL: int := 20_000
  const DEFAULT_ENTRIES: int := 2048

  predicate Expired(e: Entry, now: Time) {
    now >= e.expiresAt
  }

  // ---------- Lock sections ----------

  /** What makes room: nothing below the limit, else an expired entry, or the oldest when none is expired. */
  ghost predicate MayEvict(cache: Cache, max: nat, now: Time, evicted: Option<Key>) {
    match evicted
    case None => |cache| < max
    case Some(key) =>
      && |cache| >= max && key in cache
      && (Expired(cache[key], now)
          || forall k :: k in cache ==> !Expired(cache[k], now) && cache[key].expiresAt <= cache[k].expiresAt)
  }

  function Without(cache: Cache, evicted: Option<Key>): Cache {
    if evicted.Some? then cache - {evicted.value} else cache
  }

  function WithoutToken(cache: Cache, token: string): Cache {
    map key | key in cache && key.token != token :: cache[key]
  }

  class Authenticator {
    const ttl: int
    const maxEntries: nat
    var cache: Cache

    ghost predicate Valid()
      reads this
    {
      0 <= ttl <= MAX_TTL && maxEntries > 0 && |cache| <= maxEntries
    }

    constructor (ttl: int, maxEntries: int)
      ensures Valid() && cache == map[]
      ensures this.ttl == if 0 <= ttl <= 30_000 then ttl else 20_000
      ensures this.maxEntries == if maxEntries > 0 then maxEntries else 2048
    {
      this.ttl := if ttl < 0 || ttl > MAX_TTL then DEFAULT_TTL else ttl;
      this.maxEntries := if maxEntries <= 0 then DEFAULT_ENTRIES else maxEntries;
      cache := map[];
    }

    /** The section before the profile call: a live entry is served, a dead one is removed. */
    method Serve(key: Key, now: Time) returns (served: Option<Entry>)
      requires Valid()
      modifies this`cache
      ensures Valid()
      ensures served == if key in old(cache) && !Expired(old(cache)[key], now) then Some(old(cache)[key]) else None
      ensures cache == if served.Some? then old(cache) else old(cache) - {key}
    {
      if key in cache {
        if now < cache[key].expiresAt {
          return Some(cache[key]);
        }
        Smaller(cache, key);
        cache := cache - {key};
        return None;
      }
      assert cache - {key} == cache;
      return None;
    }

    /** The loop over the entries, in any order; it stops at the first expired one. */
    method EvictExpiredOrOldest(now: Time) returns (ghost evicted: Option<Key>)
      requires Valid()
      modifies this`cache
      ensures MayEvict(old(cache), maxEntries, now, evicted) && cache == Without(old(cache), evicted) && |cache| < maxEntries
    {
      if |cache| < maxEntries {
        return None;
      }
      var keys := cache.Keys;
      var oldest: Option<Key> := None;
      while keys != {}
        invariant keys <= cache.Keys && cache == old(cache)
        invariant oldest.None? <==> keys == cache.Keys
        invariant oldest.Some? ==> oldest.value in cache
        invariant forall k :: k in cache.Keys - keys ==>
          !Expired(cache[k], now) && oldest.Some? && cache[oldest.value].expiresAt <= cache[k].expiresAt
        decreases |keys|
      {
        var key :| key in keys;
        if now >= cache[key].expiresAt {
          Smaller(cache, key);
          cache := cache - {key};
          return Some(key);
        }
        if oldest.None? || cache[key].expiresAt < cache[oldest.value].expiresAt {
          oldest := Some(key);
        }
        keys := keys - {key};
      }
      Smaller(cache, oldest.value);
      cache := cache - {oldest.value};
      return oldest;
    }

    /** The section after a profile answer; the clock is read twice in it. */
    method Store(key: Key, principal: string, now: Time, later: Time) returns (ghost evicted: Option<Key>)
      requires Valid() && ttl > 0
      modifies this`cache
      ensures Valid() && MayEvict(old(cache), maxEntries, now, evicted)
      ensures cache == Without(old(cache), evicted)[key := Entry(principal, later + ttl)]
    {
      evicted := EvictExpiredOrOldest(now);
      OneMore(cache, key, Entry(principal, later + ttl));
      cache := cache[key := Entry(principal, later + ttl)];
    }

    /** The section after a profile error. */
    method Forget(key: Key)
      requires Valid()
      modifies this`cache
      ensures Valid() && cache == old(cache) - {key}
    {
      if key in cache {
        Smaller(cache, key);
      } else {
        assert cache - {key} == cache;
      }
      cache := cache - {key};
    }

    method Invalidate(token: string)
      requires Valid()
      modifies this`cache
      ensures Valid() && cache == WithoutToken(old(cache), token)
    {
      var keys := cache.Keys;
      while keys != {}
        invariant keys <= cache.Keys <= old(cache).Keys && Valid()
        invariant forall k :: k in cache ==> cache[k] == old(cache)[k]
        invariant forall k :: k in old(cache) && k !in cache ==> k.token == token
        invariant forall k :: k in cache && k !in keys ==> k.token != token
        decreases |keys|
      {
        var key :| key in keys;
        if key.token == token {
          Smaller(cache, key);
          cache := cache - {key};
        }
        keys := keys - {key};
      }
    }
  }

  lemma OneMore(cache: Cache, key: Key, e: Entry)
    ensures |cache[key := e]| <= |cache| + 1
  {
    assert cache[key := e].Keys == cache.Keys + {key};
  }

  lemma Smaller(cache: Cache, key: Key)
    requires key in cache
    ensures |cache - {key}| == |cache| - 1
  {
    assert cache.Keys == (cache - {key}).Keys + {key};
  }

  // ---------- Requests ----------

  /** A request waits for the profile service, or has the n-th answer it gave and has not stored it yet. */
  datatype Pending = Asking(key: Key) | Got(key: Key, n: nat)

  datatype Given = Given(key: Key, principal: string)

  /** An answer that came from the cache, at some time. */
  datatype Served = Served(key: Key, principal: string, at: Time)

  /**
   given is every answer of the profile service, in order; origin and storedAt say of each cached answer which
   of them it is and when it was stored.
  */
  datatype State = State(
    cache: Cache, origin: map<Key, nat>, storedAt: map<Key, Time>,
    pending: map<nat, Pending>, given: seq<Given>, served: seq<Served>, clock: Time)

  datatype Config = Config(ttl: int, max: nat)

  predicate ConfigOk(c: Config) {
    0 < c.ttl <= MAX_TTL && c.max > 0
  }

  function Init(clock: Time): State {
    State(map[], map[], map[], map[], [], [], clock)
  }

  datatype Event =
    | Begin(request: nat, key: Key, anew: bool, now: Time)
    | Answer(request: nat, principal: string)
    | Refuse(request: nat)
    | Keep(request: nat, now: Time, later: Time, evicted: Option<Key>)
    | Invalidate(token: string)

  ghost predicate Enabled(c: Config, s: State, e: Event) {
    match e
    case Begin(request, key, anew, now) => request !in s.pending && now >= s.clock
    case Answer(request, principal) => request in s.pending && s.pending[request].Asking?
    case Refuse(request) => request in s.pending && s.pending[request].Asking?
    case Keep(request, now, later, evicted) =>
      && request in s.pending && s.pending[request].Got? && s.pending[request].n < |s.given|
      && s.clock <= now <= later && MayEvict(s.cache, c.max, now, evicted)
    case Invalidate(_) => true
  }

  predicate Hit(s: State, e: Event) {
    e.Begin? && !e.anew && e.key in s.cache && !Expired(s.cache[e.key], e.now)
  }

  function Step(c: Config, s: State, e: Event): State
    requires Enabled(c, s, e)
  {
    match e
    case Begin(request, key, anew, now) =>
      if Hit(s, e) then s.(served := s.served + [Served(key, s.cache[key].principal, now)], clock := now)
      else s.(cache := if anew then s.cache else s.cache - {key},
              pending := s.pending[request := Asking(key)], clock := now)
    case Answer(request, principal) =>
      var key := s.pending[request].key;
      s.(pending := s.pending[request := Got(key, |s.given|)], given := s.given + [Given(key, principal)])
    case Refuse(request) =>
      s.(cache := s.cache - {s.pending[request].key}, pending := s.pending - {request})
    case Keep(request, now, later, evicted) =>
      var key, n := s.pending[request].key, s.pending[request].n;
      s.(cache := Without(s.cache, evicted)[key := Entry(s.given[n].principal, later + c.ttl)],
         origin := s.origin[key := n], storedAt := s.storedAt[key := later],
         pending := s.pending - {request}, clock := later)
    case Invalidate(token) => s.(cache := WithoutToken(s.cache, token))
  }

  ghost predicate Run(c: Config, s: State, es: seq<Event>)
    decreases |es|
  {
    es == [] || (Enabled(c, s, es[0]) && Run(c, Step(c, s, es[0]), es[1..]))
  }

  ghost function After(c: Config, s: State, es: seq<Event>): State
    requires Run(c, s, es)
    decreases |es|
  {
    if es == [] then s else After(c, Step(c, s, es[0]), es[1..])
  }

  ghost predicate Runs(auth: Authenticator, c: Config, s: State)
    reads auth
  {
    auth.Valid() && auth.ttl == c.ttl > 0 && auth.maxEntries == c.max && auth.cache == s.cache
  }

  /**
   The steps are the lock sections: whichever section a step stands for, running it on the cache of the state
   leaves the cache of the next state.
  */
  method TakeStep(auth: Authenticator, c: Config, s: State, e: Event)
    requires Runs(auth, c, s) && Enabled(c, s, e) && !e.Keep?
    modifies auth`cache
    ensures Runs(auth, c, Step(c, s, e))
  {
    match e {
      case Begin(request, key, anew, now) =>
        if !anew {
          var served := auth.Serve(key, now);
        }
      case Answer(_, _) =>
      case Refuse(request) =>
        auth.Forget(s.pending[request].key);
      case Invalidate(token) =>
        auth.Invalidate(token);
    }
  }

  /** An answer is kept with whichever eviction the loop over the map comes to. */
  method TakeKeep(auth: Authenticator, c: Config, s: State, request: nat, now: Time, later: Time) returns (ghost evicted: Option<Key>)
    requires Runs(auth, c, s) && s.clock <= now <= later
    requires request in s.pending && s.pending[request].Got? && s.pending[request].n < |s.given|
    modifies auth`cache
    ensures Enabled(c, s, Keep(request, now, later, evicted)) && Runs(auth, c, Step(c, s, Keep(request, now, later, evicted)))
  {
    evicted := auth.Store(s.pending[request].key, s.given[s.pending[request].n].principal, now, later);
  }

  // ---------- What always holds ----------

  /** A cached answer is one the profile service gave for the same token and session, stored a time to live before it expires. */
  ghost predicate Sound(c: Config, s: State) {
    && |s.cache| <= c.max
    && (forall k :: k in s.cache ==>
          && k in s.origin && k in s.storedAt && s.origin[k] < |s.given|
          && s.given[s.origin[k]] == Given(k, s.cache[k].principal)
          && s.cache[k].expiresAt == s.storedAt[k] + c.ttl && s.storedAt[k] <= s.clock)
    && (forall r :: r in s.pending && s.pending[r].Got? ==> s.pending[r].n < |s.given| && s.given[s.pending[r].n].key == s.pending[r].key)
  }

  lemma SmallerCache(c: Config, s: State, cache: Cache)
    requires Sound(c, s) && cache.Keys <= s.cache.Keys && forall k :: k in cache ==> cache[k] == s.cache[k]
    ensures Sound(c, s.(cache := cache))
  {
    assert s.cache.Keys == cache.Keys + (s.cache.Keys - cache.Keys);
    assert |cache.Keys| <= |s.cache.Keys|;
  }

  lemma BeginKeepsSound(c: Config, s: State, e: Event)
    requires Sound(c, s) && Enabled(c, s, e) && e.Begin?
    ensures Sound(c, Step(c, s, e))
  {
    if !Hit(s, e) && !e.anew {
      SmallerCache(c, s, s.cache - {e.key});
    }
  }

  lemma StepKeepsSound(c: Config, s: State, e: Event)
    requires ConfigOk(c) && Sound(c, s) && Enabled(c, s, e)
    ensures Sound(c, Step(c, s, e))
  {
    match e
    case Begin(request, key, anew, now) =>
      BeginKeepsSound(c, s, e);
    case Answer(_, _) =>
    case Refuse(request) => SmallerCache(c, s, s.cache - {s.pending[request].key});
    case Keep(request, now, later, evicted) =>
      KeepsSize(s.cache, c.max, now, evicted, s.pending[request].key, Entry(s.given[s.pending[request].n].principal, later + c.ttl));
    case Invalidate(token) => SmallerCache(c, s, WithoutToken(s.cache, token));
  }

  lemma KeepsSize(cache: Cache, max: nat, now: Time, evicted: Option<Key>, key: Key, e: Entry)
    requires MayEvict(cache, max, now, evicted) && |cache| <= max
    ensures |Without(cache, evicted)[key := e]| <= max
  {
    if evicted.Some? {
      Smaller(cache, evicted.value);
    }
    OneMore(Without(cache, evicted), key, e);
  }

  lemma {:induction false} AlwaysSound(c: Config, s: State, es: seq<Event>)
    requires ConfigOk(c) && Sound(c, s) && Run(c, s, es)
    ensures Sound(c, After(c, s, es))
    decreases |es|
  {
    if es != [] {
      StepKeepsSound(c, s, es[0]);
      AlwaysSound(c, Step(c, s, es[0]), es[1..]);
    }
  }

  /**
   Over every run: the cache stays within its limit, and an answer it serves is one the profile service gave for
   the same token and session headers, stored less than the time to live ago.
  */
  lemma ServedWasGiven(c: Config, clock: Time, es: seq<Event>, e: Event)
    requires ConfigOk(c) && Run(c, Init(clock), es)
    ensures |After(c, Init(clock), es).cache| <= c.max
    ensures var s := After(c, Init(clock), es);
            Enabled(c, s, e) && Hit(s, e) ==>
              && Given(e.key, s.cache[e.key].principal) in s.given
              && e.key in s.storedAt && e.now - c.ttl < s.storedAt[e.key] <= e.now
  {
    AlwaysSound(c, Init(clock), es);
  }

  // ---------- What is kept is served ----------

  /** The event does not concern the entry of a key: no invalidation, refusal, new answer or eviction of it. */
  predicate Passes(s: State, e: Event, key: Key, until: Time) {
    match e
    case Begin(_, k, _, now) => k == key ==> now < until
    case Answer(_, _) => true
    case Refuse(request) => request in s.pending ==> s.pending[request].key != key
    case Keep(request, _, _, evicted) => evicted != Some(key) && (request in s.pending ==> s.pending[request].key != key)
    case Invalidate(token) => token != key.token
  }

  ghost predicate PassingRun(c: Config, s: State, es: seq<Event>, key: Key, until: Time)
    requires Run(c, s, es)
    decreases |es|
  {
    es == [] || (Passes(s, es[0], key, until) && PassingRun(c, Step(c, s, es[0]), es[1..], key, until))
  }

  lemma {:induction false} EntryStays(c: Config, s: State, es: seq<Event>, key: Key, entry: Entry)
    requires Run(c, s, es) && PassingRun(c, s, es, key, entry.expiresAt) && key in s.cache && s.cache[key] == entry
    ensures key in After(c, s, es).cache && After(c, s, es).cache[key] == entry
    decreases |es|
  {
    if es != [] {
      EntryStays(c, Step(c, s, es[0]), es[1..], key, entry);
    }
  }

  /**
   An answer that was kept is served for the time to live: whatever happens to other keys meanwhile, a request for
   the same token and session before that is answered from the cache and asks nobody, and one after it asks again.
  */
  lemma {:induction false} KeptIsServed(c: Config, s: State, keep: Event, es: seq<Event>, begin: Event)
    requires Enabled(c, s, keep) && keep.Keep? && Run(c, Step(c, s, keep), es)
    requires PassingRun(c, Step(c, s, keep), es, s.pending[keep.request].key, keep.later + c.ttl)
    requires begin.Begin? && begin.key == s.pending[keep.request].key && !begin.anew
    requires Enabled(c, After(c, Step(c, s, keep), es), begin)
    ensures var now, principal := After(c, Step(c, s, keep), es), s.given[s.pending[keep.request].n].principal;
      var next := Step(c, now, begin);
      if begin.now < keep.later + c.ttl then
        next == now.(served := now.served + [Served(begin.key, principal, begin.now)], clock := begin.now)
      else
        begin.key !in next.cache && next.served == now.served
        && next.pending == now.pending[begin.request := Asking(begin.key)]
  {
    var key := s.pending[keep.request].key;
    EntryStays(c, Step(c, s, keep), es, key, Entry(s.given[s.pending[keep.request].n].principal, keep.later + c.ttl));
  }

  predicate KeepsNot(s: State, e: Event, key: Key) {
    e.Keep? ==> e.request in s.pending && s.pending[e.request].key != key
  }

  ghost predicate KeepingNot(c: Config, s: State, es: seq<Event>, key: Key)
    requires Run(c, s, es)
    decreases |es|
  {
    es == [] || (KeepsNot(s, es[0], key) && KeepingNot(c, Step(c, s, es[0]), es[1..], key))
  }

  lemma {:induction false} StaysOut(c: Config, s: State, es: seq<Event>, key: Key)
    requires Run(c, s, es) && KeepingNot(c, s, es, key) && key !in s.cache
    ensures key !in After(c, s, es).cache
    decreases |es|
  {
    if es != [] {
      StaysOut(c, Step(c, s, es[0]), es[1..], key);
    }
  }

  /** After a refusal nothing is served for the token and session until a new answer for them is kept; other entries stay. */
  lemma {:induction false} RefusedIsForgotten(c: Config, s: State, request: nat, es: seq<Event>, begin: Event)
    requires Enabled(c, s, Refuse(request)) && Run(c, Step(c, s, Refuse(request)), es)
    requires KeepingNot(c, Step(c, s, Refuse(request)), es, s.pending[request].key)
    requires begin.Begin? && begin.key == s.pending[request].key
    ensures !Hit(After(c, Step(c, s, Refuse(request)), es), begin)
    ensures forall k :: k in s.cache && k != s.pending[request].key ==>
      k in Step(c, s, Refuse(request)).cache && Step(c, s, Refuse(request)).cache[k] == s.cache[k]
  {
    StaysOut(c, Step(c, s, Refuse(request)), es, s.pending[request].key);
  }

  // ---------- What an invalidation does ----------

  /** A request has an answer of the token from before the n-th in hand. */
  ghost predicate HeldOld(s: State, token: string, n: nat) {
    exists r :: r in s.pending && s.pending[r].Got? && s.pending[r].key.token == token && s.pending[r].n < n
  }

  ghost predicate NoneOld(s: State, token: string, n: nat) {
    && (forall k :: k in s.cache && k.token == token ==> k in s.origin && s.origin[k] >= n)
    && (forall r :: r in s.pending && s.pending[r].Got? && s.pending[r].key.token == token ==> s.pending[r].n >= n)
    && n <= |s.given|
  }

  /** Some run serves an answer of the token that was given before the n-th. */
  ghost predicate MayServeOld(c: Config, s: State, token: string, n: nat) {
    exists es, e :: Run(c, s, es) && ServesOld(c, After(c, s, es), e, token, n)
  }

  ghost predicate ServesOld(c: Config, s: State, e: Event, token: string, n: nat) {
    Enabled(c, s, e) && Hit(s, e) && e.key.token == token && e.key in s.origin && s.origin[e.key] < n
  }

  lemma StepKeepsNoneOld(c: Config, s: State, e: Event, token: string, n: nat)
    requires Enabled(c, s, e) && NoneOld(s, token, n)
    ensures NoneOld(Step(c, s, e), token, n)
  {
  }

  lemma {:induction false} NoneOldStays(c: Config, s: State, es: seq<Event>, token: string, n: nat)
    requires Run(c, s, es) && NoneOld(s, token, n)
    ensures NoneOld(After(c, s, es), token, n)
    decreases |es|
  {
    if es != [] {
      StepKeepsNoneOld(c, s, es[0], token, n);
      NoneOldStays(c, Step(c, s, es[0]), es[1..], token, n);
    }
  }

  /**
   After an invalidation an older answer of the token can still be served exactly when some request had it in
   hand, between its profile call and its second lock section.
  */
  lemma InvalidationIsComplete(c: Config, s: State, token: string)
    requires ConfigOk(c) && Sound(c, s)
    ensures MayServeOld(c, Step(c, s, Invalidate(token)), token, |s.given|) <==> HeldOld(s, token, |s.given|)
  {
    var s1, n := Step(c, s, Invalidate(token)), |s.given|;
    StepKeepsSound(c, s, Invalidate(token));
    if HeldOld(s, token, n) {
      var r :| r in s1.pending && s1.pending[r].Got? && s1.pending[r].key.token == token && s1.pending[r].n < n;
      ComesBack(c, s1, r, n);
    } else {
      assert NoneOld(s1, token, n);
      forall es, e | Run(c, s1, es) && Enabled(c, After(c, s1, es), e)
        ensures !ServesOld(c, After(c, s1, es), e, token, n)
      {
        NoneOldStays(c, s1, es, token, n);
      }
    }
  }

  /** The request stores what it has, and the next one is served it. */
  lemma ComesBack(c: Config, s: State, r: nat, n: nat)
    requires ConfigOk(c) && Sound(c, s) && r in s.pending && s.pending[r].Got? && s.pending[r].n < n
    ensures MayServeOld(c, s, s.pending[r].key.token, n)
  {
    var key := s.pending[r].key;
    var evicted := SomeEviction(s.cache, c.max, s.clock);
    var keep := Keep(r, s.clock, s.clock, evicted);
    var s2 := Step(c, s, keep);
    var begin := Begin(r, key, false, s.clock);
    assert [keep][1..] == [] && Run(c, s2, [keep][1..]) && After(c, s, [keep]) == s2;
    assert ServesOld(c, s2, begin, key.token, n);
  }

  lemma {:induction false} SomeEviction(cache: Cache, max: nat, now: Time) returns (evicted: Option<Key>)
    requires max > 0
    ensures MayEvict(cache, max, now, evicted)
  {
    if |cache| < max {
      evicted := None;
    } else if key :| key in cache && Expired(cache[key], now) {
      evicted := Some(key);
    } else {
      var key := Oldest(cache, cache.Keys);
      evicted := Some(key);
    }
  }

  lemma {:induction false} Oldest(cache: Cache, keys: set<Key>) returns (oldest: Key)
    requires keys <= cache.Keys && keys != {}
    ensures oldest in keys && forall k :: k in keys ==> cache[oldest].expiresAt <= cache[k].expiresAt
    decreases |keys|
  {
    var key :| key in keys;
    if keys == {key} {
      oldest := key;
    } else {
      assert keys - {key} != {};
      oldest := Oldest(cache, keys - {key});
      if cache[key].expiresAt < cache[oldest].expiresAt {
        oldest := key;
      }
    }
  }

  /** A request has its answer, the token is invalidated, and the answer is stored and served after all. */
  lemma AnAnswerInHand(c: Config, key: Key, principal: string)
    requires ConfigOk(c)
    ensures var es := [Begin(0, key, false, 0), Answer(0, principal)];
            && Run(c, Init(0), es) && HeldOld(After(c, Init(0), es), key.token, 1)
            && MayServeOld(c, Step(c, After(c, Init(0), es), Invalidate(key.token)), key.token, 1)
  {
    var begin, answer := Begin(0, key, false, 0), Answer(0, principal);
    var es := [begin, answer];
    var s1 := Step(c, Init(0), begin);
    var s2 := Step(c, s1, answer);
    assert es[1..] == [answer] && [answer][1..] == [];
    assert Run(c, s2, [answer][1..]) && After(c, s2, [answer][1..]) == s2;
    assert Run(c, s1, es[1..]) && After(c, s1, es[1..]) == s2;
    assert s2.pending[0] == Got(key, 0);
    AlwaysSound(c, Init(0), es);
    InvalidationIsComplete(c, s2, key.token);
  }
}
