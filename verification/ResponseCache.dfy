/** The memory cache and the gateway in front of it. */
module ResponseCache {
  import opened Bpmn
  import opened CacheKey

  datatype Response = Response(text: string, model: string, tokensIn: int, tokensOut: int)

  /** The settings are part of a request but not of its key. */
  datatype Settings = Settings(maxTokens: int, temperature: real, tools: seq<string>, schema: string)

  datatype Request = Request(prompt: Prompt, settings: Settings)

  /** Times and durations in nanoseconds. */
  datatype Entry = Entry(response: Response, createdAt: int, ttl: int)

  predicate IsExpired(e: Entry, now: int) { e.ttl > 0 && now - e.createdAt > e.ttl }

  function Found(entries: map<string, Entry>, key: string, now: int): Option<Entry> {
    if key in entries && !IsExpired(entries[key], now) then Some(entries[key]) else None
  }

  /** Looking up removes an expired entry. */
  function Pruned(entries: map<string, Entry>, key: string, now: int): map<string, Entry> {
    if key in entries && IsExpired(entries[key], now) then entries - {key} else entries
  }

  function Stored(entries: map<string, Entry>, key: string, r: Response,
                  ttl: int, cacheTtl: int, now: int): map<string, Entry> {
    entries[key := Entry(r, now, if ttl <= 0 then cacheTtl else ttl)]
  }

  class MemoryCache {
    var entries: map<string, Entry>
    const ttl: int

    constructor (ttl: int)
      ensures entries == map[] && this.ttl == ttl
    {
      entries := map[];
      this.ttl := ttl;
    }

    method Get(key: string, now: int) returns (entry: Option<Entry>)
      modifies this`entries
      ensures entry == Found(old(entries), key, now) && entries == Pruned(old(entries), key, now)
      ensures entry.None? ==> key !in entries
      ensures entry.Some? ==> key in old(entries) && entry.value == old(entries)[key] && entries == old(entries)
      ensures forall k | k != key ::
                (k in entries <==> k in old(entries)) && (k in entries ==> entries[k] == old(entries)[k])
    {
      if key !in entries {
        return None;
      }
      var e := entries[key];
      if IsExpired(e, now) {
        entries := entries - {key};
        return None;
      }
      return Some(e);
    }

    method Set(key: string, r: Response, ttl: int, now: int)
      modifies this`entries
      ensures entries == Stored(old(entries), key, r, ttl, this.ttl, now)
      ensures key in entries && entries[key] == Entry(r, now, if ttl > 0 then ttl else this.ttl)
    {
      var kept := ttl;
      if kept <= 0 {
        kept := this.ttl;
      }
      entries := entries[key := Entry(r, now, kept)];
    }

    method Delete(key: string)
      modifies this`entries
      ensures entries == old(entries) - {key}
    {
      entries := entries - {key};
    }

    method Clear()
      modifies this`entries
      ensures entries == map[]
    {
      entries := map[];
    }
  }

  /** The gateway behind the cache answers `model(req)` when it answers; `hash` stands for SHA-256. */
  datatype Setup = Setup(model: Request -> Response, hash: string -> string, ttl: int, cacheTtl: int)

  function Key(g: Setup, req: Request): string { g.hash(KeyBytes(req.prompt)) }

  /** What a caller gets: `None` is an error of the gateway behind the cache. */
  function Answer(g: Setup, entries: map<string, Entry>, req: Request, now: int, fails: bool): Option<Response> {
    match Found(entries, Key(g, req), now)
    case Some(e) => Some(e.response)
    case None => if fails then None else Some(g.model(req))
  }

  function After(g: Setup, entries: map<string, Entry>, req: Request, now: int, fails: bool): map<string, Entry> {
    var pruned := Pruned(entries, Key(g, req), now);
    if Found(entries, Key(g, req), now).Some? || fails then pruned
    else Stored(pruned, Key(g, req), g.model(req), g.ttl, g.cacheTtl, now)
  }

  class CachedGateway {
    const setup: Setup
    const cache: MemoryCache?

    constructor (model: Request -> Response, hash: string -> string, ttl: int, cache: MemoryCache?)
      ensures Valid() && this.cache == cache
      ensures setup == Setup(model, hash, ttl, if cache == null then 0 else cache.ttl)
    {
      this.setup := Setup(model, hash, ttl, if cache == null then 0 else cache.ttl);
      this.cache := cache;
    }

    predicate Valid() { cache != null ==> cache.ttl == setup.cacheTtl }

    /** `fails` says whether the gateway behind would answer this call with an error; `asked` whether
        it was called at all. */
    method Generate(req: Request, now: int, fails: bool) returns (answer: Option<Response>, asked: bool)
      requires Valid()
      modifies if cache != null then {cache} else {}
      ensures cache == null ==> asked && answer == if fails then None else Some(setup.model(req))
      ensures cache != null ==>
                && answer == Answer(setup, old(cache.entries), req, now, fails)
                && cache.entries == After(setup, old(cache.entries), req, now, fails)
                && asked == Found(old(cache.entries), Key(setup, req), now).None?
    {
      if cache == null {
        return if fails then None else Some(setup.model(req)), true;
      }
      var bytes := HashedBytes(req.prompt);
      var key := setup.hash(bytes);
      var entry := cache.Get(key, now);
      if entry.Some? {
        return Some(entry.value.response), false;
      }
      if fails {
        return None, true;
      }
      answer := Some(setup.model(req));
      cache.Set(key, answer.value, setup.ttl, now);
      return answer, true;
    }
  }

  /** What can happen to a cache. */
  datatype Op = Ask(req: Request, now: int, fails: bool) | Delete(key: string) | Clear

  function Step(g: Setup, entries: map<string, Entry>, op: Op): map<string, Entry> {
    match op
    case Ask(req, now, fails) => After(g, entries, req, now, fails)
    case Delete(key) => entries - {key}
    case Clear => map[]
  }

  /** Every answer along the history is the one the gateway behind would give now. */
  predicate Transparent(g: Setup, entries: map<string, Entry>, ops: seq<Op>)
    decreases |ops|
  {
    ops == [] ||
    ((ops[0].Ask? && Answer(g, entries, ops[0].req, ops[0].now, ops[0].fails).Some? ==>
        Answer(g, entries, ops[0].req, ops[0].now, ops[0].fails) == Some(g.model(ops[0].req)))
     && Transparent(g, Step(g, entries, ops[0]), ops[1..]))
  }

  ghost predicate Plain(ops: seq<Op>) { forall op | op in ops && op.Ask? :: NulFree(op.req.prompt) }

  ghost predicate Injective(hash: string -> string) { forall a, b :: hash(a) == hash(b) ==> a == b }

  /** The gateway behind looks at no more than what the key sees. */
  ghost predicate SeesOnlyPrompt(model: Request -> Response) {
    forall a: Request, b: Request | NulFree(a.prompt) && NulFree(b.prompt) && Seen(a.prompt) == Seen(b.prompt) ::
      model(a) == model(b)
  }

  /** Every entry was the answer to some request with that key. */
  ghost predicate Faithful(g: Setup, entries: map<string, Entry>) {
    forall k | k in entries ::
      exists req: Request :: NulFree(req.prompt) && k == Key(g, req) && entries[k].response == g.model(req)
  }

  lemma HitIsRight(g: Setup, entries: map<string, Entry>, req: Request)
    requires Injective(g.hash) && SeesOnlyPrompt(g.model) && Faithful(g, entries)
    requires NulFree(req.prompt) && Key(g, req) in entries
    ensures entries[Key(g, req)].response == g.model(req)
  {
    var other: Request :| NulFree(other.prompt) && Key(g, req) == Key(g, other)
                 && entries[Key(g, req)].response == g.model(other);
    KeyIdentifies(req.prompt, other.prompt);
  }

  lemma StepFaithful(g: Setup, entries: map<string, Entry>, op: Op)
    requires Faithful(g, entries) && (op.Ask? ==> NulFree(op.req.prompt))
    ensures Faithful(g, Step(g, entries, op))
  {
  }

  lemma {:induction false} StaysTransparent(g: Setup, entries: map<string, Entry>, ops: seq<Op>)
    requires Injective(g.hash) && SeesOnlyPrompt(g.model) && Faithful(g, entries) && Plain(ops)
    ensures Transparent(g, entries, ops)
    decreases |ops|
  {
    if ops != [] {
      assert ops[0] in ops;
      StepFaithful(g, entries, ops[0]);
      StaysTransparent(g, Step(g, entries, ops[0]), ops[1..]);
      if ops[0].Ask? && Found(entries, Key(g, ops[0].req), ops[0].now).Some? {
        HitIsRight(g, entries, ops[0].req);
      }
    }
  }

  /** Cache transparency, exactly: over every history of hits, misses, expiries, deletions and
      clearings the cache gives the answers of the gateway behind it if and only if that gateway
      looks at nothing but model, system text, roles and contents. Settings such as the temperature
      or an output schema are not in the key. */
  lemma TransparentExactly(g: Setup)
    requires Injective(g.hash)
    ensures (forall ops | Plain(ops) :: Transparent(g, map[], ops)) <==> SeesOnlyPrompt(g.model)
  {
    if SeesOnlyPrompt(g.model) {
      forall ops | Plain(ops) ensures Transparent(g, map[], ops) {
        StaysTransparent(g, map[], ops);
      }
    }
    if forall ops | Plain(ops) :: Transparent(g, map[], ops) {
      forall a: Request, b: Request | NulFree(a.prompt) && NulFree(b.prompt) && Seen(a.prompt) == Seen(b.prompt)
        ensures g.model(a) == g.model(b)
      {
        SecondAsker(g, a, b);
      }
    }
  }

  lemma SecondAsker(g: Setup, a: Request, b: Request)
    requires NulFree(a.prompt) && NulFree(b.prompt) && Seen(a.prompt) == Seen(b.prompt)
    requires forall ops | Plain(ops) :: Transparent(g, map[], ops)
    ensures g.model(a) == g.model(b)
  {
    var ops := [Ask(a, 0, false), Ask(b, 0, false)];
    KeyIdentifies(a.prompt, b.prompt);
    assert Plain(ops);
    var once := Step(g, map[], ops[0]);
    assert Transparent(g, once, ops[1..]);
    assert Found(once, Key(g, b), 0).Some?;
  }

  function PerformAll(g: Setup, entries: map<string, Entry>, ops: seq<Op>): map<string, Entry>
    decreases |ops|
  {
    if ops == [] then entries else PerformAll(g, Step(g, entries, ops[0]), ops[1..])
  }

  /** How long an answer is kept; a time that is not positive means for good. */
  function Lifetime(g: Setup): int { if g.ttl > 0 then g.ttl else g.cacheTtl }

  predicate Alive(g: Setup, stored: int, now: int) { Lifetime(g) <= 0 || now - stored <= Lifetime(g) }

  /** The operation does not remove `key`, stored at `stored`, and does not ask for it after its time. */
  predicate Quiet(g: Setup, key: string, stored: int, op: Op) {
    match op
    case Ask(req, now, _) => Key(g, req) == key ==> Alive(g, stored, now)
    case Delete(k) => k != key
    case Clear => false
  }

  lemma {:induction false} StaysStored(g: Setup, entries: map<string, Entry>, ops: seq<Op>, key: string, e: Entry)
    requires key in entries && entries[key] == e && e.ttl == Lifetime(g)
    requires forall op | op in ops :: Quiet(g, key, e.createdAt, op)
    ensures key in PerformAll(g, entries, ops) && PerformAll(g, entries, ops)[key] == e
    decreases |ops|
  {
    if ops != [] {
      assert ops[0] in ops;
      StaysStored(g, Step(g, entries, ops[0]), ops[1..], key, e);
    }
  }

  /** An answer is reused for exactly its lifetime from the moment it was stored. Neither hits nor requests with
      other keys prolong or shorten it, and afterwards the gateway behind is asked again. */
  lemma LivesExactly(g: Setup, entries: map<string, Entry>, req: Request, stored: int, ops: seq<Op>,
                     other: Request, now: int, fails: bool)
    requires Found(entries, Key(g, req), stored) == None && Key(g, other) == Key(g, req)
    requires forall op | op in ops :: Quiet(g, Key(g, req), stored, op)
    ensures Answer(g, entries, req, stored, false) == Some(g.model(req))
    ensures var later := PerformAll(g, Step(g, entries, Ask(req, stored, false)), ops);
            && (Found(later, Key(g, other), now) == None <==> !Alive(g, stored, now))
            && Answer(g, later, other, now, fails)
               == if Alive(g, stored, now) then Some(g.model(req)) else if fails then None else Some(g.model(other))
  {
    var e := Entry(g.model(req), stored, Lifetime(g));
    StaysStored(g, Step(g, entries, Ask(req, stored, false)), ops, Key(g, req), e);
  }

  /** An error of the gateway behind is handed on and leaves nothing in the cache that was not there. */
  lemma ErrorsAreNotStored(g: Setup, entries: map<string, Entry>, req: Request, now: int, key: string, later: int)
    requires Found(entries, Key(g, req), now) == None && later >= now
    ensures Answer(g, entries, req, now, true) == None
    ensures Found(After(g, entries, req, now, true), key, later) == Found(entries, key, later)
  {
  }
}
