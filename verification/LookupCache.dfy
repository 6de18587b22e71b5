/**
 * Identity lookups behind two caches: a memory cache whose entries expire, and a table per record type that
 * both providers share.
 *
 * The SHA-256 of a lookup is taken to be injective: entries are keyed by the hashed text itself.
 */
module LookupCache {
  import opened Wrappers
  import opened Payload

  datatype Provider = Dikript | Prembly

  datatype Kind = Nin | Cac

  datatype Query = Query(provider: Provider, kind: Kind, value: string)

  function KindText(k: Kind): string { if k == Nin then "nin" else "cac" }

  /** The text whose hash keys a lookup. */
  function Hashed(q: Query): string {
    if q.provider == Dikript then q.value else "prembly:" + KindText(q.kind) + ":" + q.value
  }

  function Cleaned(p: Provider, raw: Json): Json {
    if p == Dikript then DikriptClean(raw) else PremblyClean(Decoded(raw))
  }

  predicate Reusable(p: Provider, j: Json) { if p == Dikript then DikriptReusable(j) else PremblyReusable(j) }

  datatype Slot = Slot(provider: Provider, kind: Kind, hashed: string)

  datatype Entry = Entry(payload: Json, expires: int)

  datatype Place = Place(kind: Kind, hashed: string)

  datatype Row = Row(payload: Json, fetchedAt: int)

  /** What a provider replied, as it replied. */
  datatype Reply = Reply(query: Query, raw: Json, at: int)

  /** Lifetimes are positive: a zero setting means the default. */
  type Lifetime = n: int | 0 < n witness 86400

  datatype Ttl = Ttl(dikript: Lifetime, prembly: Lifetime)

  function Life(t: Ttl, p: Provider): Lifetime { if p == Dikript then t.dikript else t.prembly }

  datatype Cache = Cache(now: int, memory: map<Slot, Entry>, table: map<Place, Row>, replies: seq<Reply>)

  datatype Result = Unavailable | Answer(payload: Json)

  function Remembered(c: Cache, s: Slot): Option<Json> {
    if s in c.memory && c.now < c.memory[s].expires then Some(c.memory[s].payload) else None
  }

  function Stored(c: Cache, t: Ttl, q: Query): Option<Json> {
    var place := Place(q.kind, Hashed(q));
    if place in c.table && c.table[place].fetchedAt >= c.now - Life(t, q.provider) then Some(c.table[place].payload)
    else None
  }

  function Remember(c: Cache, t: Ttl, q: Query, payload: Json): Cache {
    c.(memory := c.memory[Slot(q.provider, q.kind, Hashed(q)) := Entry(payload, c.now + Life(t, q.provider))])
  }

  /** A lookup; `reply` is what the provider would answer, none when it cannot be reached. */
  function Lookup(c: Cache, t: Ttl, q: Query, configured: bool, reply: Option<Json>): (Cache, Result) {
    if !configured then (c, Unavailable)
    else
      var remembered := Remembered(c, Slot(q.provider, q.kind, Hashed(q)));
      if remembered.Some? && Reusable(q.provider, remembered.value) then (c, Answer(remembered.value))
      else
        var stored := Stored(c, t, q);
        if stored.Some? && Reusable(q.provider, stored.value) then
          (Remember(c, t, q, stored.value), Answer(stored.value))
        else if reply.None? then (c, Unavailable)
        else
          var c1 := c.(replies := c.replies + [Reply(q, reply.value, c.now)]);
          var payload := Cleaned(q.provider, reply.value);
          if Reusable(q.provider, payload) then
            (Remember(c1.(table := c1.table[Place(q.kind, Hashed(q)) := Row(payload, c.now)]), t, q, payload),
             Answer(payload))
          else (c1, Answer(payload))
  }

  // ---- Where an answer comes from ----

  /** Some provider gave `payload`, cleaned, for a query hashed to this text, at this time. */
  ghost predicate Given(replies: seq<Reply>, kind: Kind, hashed: string, payload: Json, at: int) {
    exists i :: 0 <= i < |replies| && Gave(replies[i], kind, hashed, payload, at)
  }

  predicate Gave(r: Reply, kind: Kind, hashed: string, payload: Json, at: int) {
    && r.query.kind == kind && Hashed(r.query) == hashed && r.at == at
    && payload == Cleaned(r.query.provider, r.raw) && Reusable(r.query.provider, payload)
  }

  ghost predicate TableHonest(c: Cache) {
    forall p :: p in c.table ==>
      c.table[p].fetchedAt <= c.now && Given(c.replies, p.kind, p.hashed, c.table[p].payload, c.table[p].fetchedAt)
  }

  /** The reply behind a remembered payload was fetched at most a lifetime before it was remembered. */
  ghost predicate Backed(c: Cache, t: Ttl, s: Slot, e: Entry) {
    && Reusable(s.provider, e.payload)
    && exists at {:trigger Given(c.replies, s.kind, s.hashed, e.payload, at)} ::
         at <= c.now && e.expires <= at + 2 * Life(t, s.provider)
         && Given(c.replies, s.kind, s.hashed, e.payload, at)
  }

  ghost predicate MemoryHonest(c: Cache, t: Ttl) {
    forall s :: s in c.memory ==> Backed(c, t, s, c.memory[s])
  }

  ghost predicate Honest(c: Cache, t: Ttl) { TableHonest(c) && MemoryHonest(c, t) }

  lemma GivenStays(a: seq<Reply>, b: seq<Reply>, kind: Kind, hashed: string, payload: Json, at: int)
    requires a <= b && Given(a, kind, hashed, payload, at)
    ensures Given(b, kind, hashed, payload, at)
  {
    var i :| 0 <= i < |a| && Gave(a[i], kind, hashed, payload, at);
    assert b[i] == a[i];
  }

  /** Later times and more replies keep what was honest. */
  lemma HonestStays(c: Cache, d: Cache, t: Ttl)
    requires Honest(c, t) && c.now <= d.now && c.replies <= d.replies
    requires forall p :: p in d.table ==> p in c.table && d.table[p] == c.table[p]
    requires forall s :: s in d.memory ==> s in c.memory && d.memory[s] == c.memory[s]
    ensures Honest(d, t)
  {
    hide Gave, Reusable, Given;
    forall p | p in d.table
      ensures Given(d.replies, p.kind, p.hashed, d.table[p].payload, d.table[p].fetchedAt)
    {
      GivenStays(c.replies, d.replies, p.kind, p.hashed, d.table[p].payload, d.table[p].fetchedAt);
    }
    forall s | s in d.memory ensures Backed(d, t, s, d.memory[s]) {
      var e := c.memory[s];
      assert Backed(c, t, s, e);
      var at :| at <= c.now && e.expires <= at + 2 * Life(t, s.provider)
                && Given(c.replies, s.kind, s.hashed, e.payload, at);
      GivenStays(c.replies, d.replies, s.kind, s.hashed, e.payload, at);
    }
  }

  lemma RememberKeeps(c: Cache, t: Ttl, q: Query, payload: Json, at: int)
    requires Honest(c, t) && Reusable(q.provider, payload)
    requires Given(c.replies, q.kind, Hashed(q), payload, at) && c.now - Life(t, q.provider) <= at <= c.now
    ensures Honest(Remember(c, t, q, payload), t)
  {
    hide Gave, Reusable, Given, Hashed;
    var m := Remember(c, t, q, payload);
    forall s | s in m.memory ensures Backed(m, t, s, m.memory[s]) {
      if s != Slot(q.provider, q.kind, Hashed(q)) { assert Backed(c, t, s, c.memory[s]); }
    }
  }

  lemma FetchKeeps(c: Cache, t: Ttl, q: Query, raw: Json)
    requires Honest(c, t)
    ensures var d := c.(replies := c.replies + [Reply(q, raw, c.now)]);
      && Honest(d, t)
      && var payload := Cleaned(q.provider, raw);
      (Reusable(q.provider, payload) ==>
         && Given(d.replies, q.kind, Hashed(q), payload, c.now)
         && Honest(d.(table := d.table[Place(q.kind, Hashed(q)) := Row(payload, c.now)]), t))
  {
    hide Reusable, Hashed, Cleaned;
    var d := c.(replies := c.replies + [Reply(q, raw, c.now)]);
    HonestStays(c, d, t);
    var payload := Cleaned(q.provider, raw);
    if Reusable(q.provider, payload) {
      assert Gave(d.replies[|c.replies|], q.kind, Hashed(q), payload, c.now);
      var e := d.(table := d.table[Place(q.kind, Hashed(q)) := Row(payload, c.now)]);
      assert forall s :: s in e.memory ==> Backed(d, t, s, e.memory[s]);
      assert forall s :: s in e.memory && Backed(d, t, s, e.memory[s]) ==> Backed(e, t, s, e.memory[s]);
    }
  }

  /** A lookup keeps the caches honest; and either it asked the provider, exactly then adding to the
      replies, or its answer was given to a query of the same text and type less than two lifetimes ago. */
  lemma LookupHonest(c: Cache, t: Ttl, q: Query, configured: bool, reply: Option<Json>)
    requires Honest(c, t)
    ensures var (d, r) := Lookup(c, t, q, configured, reply);
      && Honest(d, t)
      && (d.replies != c.replies ==>
            reply.Some? && d.replies == c.replies + [Reply(q, reply.value, c.now)]
            && r == Answer(Cleaned(q.provider, reply.value)))
      && (d.replies == c.replies && r.Answer? ==>
            Reusable(q.provider, r.payload)
            && exists at :: c.now - 2 * Life(t, q.provider) < at <= c.now
                            && Given(c.replies, q.kind, Hashed(q), r.payload, at))
  {
    hide Reusable, Hashed, Cleaned, Given;
    var s := Slot(q.provider, q.kind, Hashed(q));
    var place := Place(q.kind, Hashed(q));
    var remembered := Remembered(c, s);
    var stored := Stored(c, t, q);
    if !configured {
    } else if remembered.Some? && Reusable(q.provider, remembered.value) {
      assert Backed(c, t, s, c.memory[s]);
    } else if stored.Some? && Reusable(q.provider, stored.value) {
      RememberKeeps(c, t, q, stored.value, c.table[place].fetchedAt);
    } else if reply.Some? {
      FetchKeeps(c, t, q, reply.value);
      var payload := Cleaned(q.provider, reply.value);
      var c1 := c.(replies := c.replies + [Reply(q, reply.value, c.now)]);
      if Reusable(q.provider, payload) {
        RememberKeeps(c1.(table := c1.table[place := Row(payload, c.now)]), t, q, payload, c.now);
      }
    }
  }

  /** The text that keys a query: Dikript's values as they are, Prembly's behind its name and the type. */
  lemma KeyedBy(q: Query)
    ensures q.provider == Dikript ==> Hashed(q) == q.value
    ensures q.provider == Prembly && q.kind == Nin ==> Hashed(q) == "prembly:nin:" + q.value
    ensures q.provider == Prembly && q.kind == Cac ==> Hashed(q) == "prembly:cac:" + q.value
  {
    assert "prembly:" + "nin" + ":" == "prembly:nin:" && "prembly:" + "cac" + ":" == "prembly:cac:";
  }

  predicate Fits(p: Provider, j: Json) {
    (p == Dikript ==> DikriptReusable(j)) && (p == Prembly ==> PremblyReusable(j))
  }

  /** A memory entry not yet expired, and fit for use. */
  predicate InMemory(c: Cache, q: Query, slot: Slot) {
    slot in c.memory && !(c.memory[slot].expires <= c.now) && Fits(q.provider, c.memory[slot].payload)
  }

  /** A row no older than a lifetime, and fit for use. */
  predicate InTable(c: Cache, q: Query, life: int, place: Place) {
    place in c.table && c.now - c.table[place].fetchedAt <= life && Fits(q.provider, c.table[place].payload)
  }

  /** What a lookup does, by where its answer is found: in memory, in the table, at the provider, or nowhere. */
  lemma LookupDoes(c: Cache, t: Ttl, q: Query, configured: bool, reply: Option<Json>)
    ensures var (d, r) := Lookup(c, t, q, configured, reply);
      var life := if q.provider == Dikript then t.dikript else t.prembly;
      var slot, place := Slot(q.provider, q.kind, Hashed(q)), Place(q.kind, Hashed(q));
      var found, kept := InMemory(c, q, slot), InTable(c, q, life, place);
      && (r == Unavailable <==> !configured || (!found && !kept && reply.None?))
      && (r == Unavailable ==> d == c)
      && (configured && found ==> d == c && r == Answer(c.memory[slot].payload))
      && (configured && !found && kept ==>
            r == Answer(c.table[place].payload) && d.(memory := c.memory) == c
            && d.memory == c.memory[slot := Entry(c.table[place].payload, c.now + life)])
      && (configured && !found && !kept && reply.Some? ==>
            && d.now == c.now && d.replies == c.replies + [Reply(q, reply.value, c.now)]
            && r == Answer(if q.provider == Dikript then DikriptClean(reply.value)
                           else if reply.value.Obj? then PremblyClean(reply.value) else Obj(map[]))
            && (!Fits(q.provider, r.payload) ==> d.memory == c.memory && d.table == c.table)
            && (Fits(q.provider, r.payload) ==>
                  && d.memory == c.memory[slot := Entry(r.payload, c.now + life)]
                  && d.table == c.table[place := Row(r.payload, c.now)]))
  {
    hide Hashed, DikriptReusable, PremblyReusable, DikriptClean;
  }

  /** One of the two is a Dikript lookup of the very text that the other, a Prembly lookup, hashes. */
  predicate Clash(a: Query, b: Query) {
    && a.kind == b.kind && a.provider != b.provider
    && var (d, p) := if a.provider == Dikript then (a, b) else (b, a);
    d.value == "prembly:" + KindText(p.kind) + ":" + p.value
  }

  /** Two different queries of one type share entries exactly when they clash. */
  lemma SharedExactly(a: Query, b: Query)
    requires a.kind == b.kind
    ensures Hashed(a) == Hashed(b) <==> a == b || Clash(a, b)
  {
    var prefix := "prembly:" + KindText(a.kind) + ":";
    if a.provider == b.provider == Prembly && Hashed(a) == Hashed(b) {
      assert a.value == Hashed(a)[|prefix|..];
      assert b.value == Hashed(b)[|prefix|..];
    }
  }

  // ---- Reuse ----

  /** Some of a memory cache: entries may have been evicted, none altered. */
  predicate PartOf(part: map<Slot, Entry>, all: map<Slot, Entry>) {
    forall s :: s in part ==> s in all && part[s] == all[s]
  }

  /** A fetched answer that may be reused is the answer for a whole lifetime: whatever is evicted and
      whatever the provider would say by then, it is not asked again. */
  lemma AnswersAreReused(c: Cache, t: Ttl, q: Query, raw: Json, later: int, kept: map<Slot, Entry>,
                         reply: Option<Json>)
    requires Lookup(c, t, q, true, Some(raw)).0.replies != c.replies && Reusable(q.provider, Cleaned(q.provider, raw))
    requires c.now <= later <= c.now + Life(t, q.provider)
    requires PartOf(kept, Lookup(c, t, q, true, Some(raw)).0.memory)
    ensures var (d, first) := Lookup(c, t, q, true, Some(raw));
      var (e, second) := Lookup(d.(now := later, memory := kept), t, q, true, reply);
      second == first && e.replies == d.replies
  {
    hide Reusable, Hashed, Cleaned;
  }

  /** An answer that may not be reused leaves no trace in either cache. */
  lemma UnusableIsNeverKept(c: Cache, t: Ttl, q: Query, configured: bool, reply: Option<Json>)
    requires reply.Some? ==> !Reusable(q.provider, Cleaned(q.provider, reply.value))
    ensures var (d, r) := Lookup(c, t, q, configured, reply);
      d.table == c.table
      && (d.memory != c.memory ==> exists kept :: Stored(c, t, q) == Some(kept) && Reusable(q.provider, kept))
  {
    hide Reusable, Hashed, Cleaned;
  }

  // ---- Runs ----

  datatype Event = Ask(query: Query, configured: bool, reply: Option<Json>) | Evict(slots: set<Slot>) | Wait(span: nat)

  function Step(c: Cache, t: Ttl, e: Event): Cache {
    match e
    case Ask(q, configured, reply) => Lookup(c, t, q, configured, reply).0
    case Evict(slots) => c.(memory := c.memory - slots)
    case Wait(span) => c.(now := c.now + span)
  }

  function Run(c: Cache, t: Ttl, events: seq<Event>): Cache {
    if events == [] then c else Step(Run(c, t, events[..|events| - 1]), t, events[|events| - 1])
  }

  function Empty(now: int): Cache { Cache(now, map[], map[], []) }

  /** Not a Dikript lookup of a text that a Prembly lookup of its type could hash. */
  predicate Plain(q: Query) { q.provider == Dikript ==> !("prembly:" + KindText(q.kind) + ":" <= q.value) }

  predicate PlainRun(events: seq<Event>) {
    forall i :: 0 <= i < |events| && events[i].Ask? ==> Plain(events[i].query)
  }

  predicate PlainReplies(replies: seq<Reply>) { forall i :: 0 <= i < |replies| ==> Plain(replies[i].query) }

  lemma {:induction false} RunHonest(t: Ttl, start: int, events: seq<Event>)
    ensures Honest(Run(Empty(start), t, events), t)
    ensures PlainRun(events) ==> PlainReplies(Run(Empty(start), t, events).replies)
    decreases |events|
  {
    hide Honest, Lookup, Plain;
    if events == [] {
      EmptyHonest(t, start);
    } else {
      var before, e := events[..|events| - 1], events[|events| - 1];
      RunHonest(t, start, before);
      var c := Run(Empty(start), t, before);
      if e.Ask? { LookupHonest(c, t, e.query, e.configured, e.reply); } else { HonestStays(c, Step(c, t, e), t); }
    }
  }

  lemma EmptyHonest(t: Ttl, start: int)
    ensures Honest(Empty(start), t)
  {
  }

  /** In every run, an answer for which no provider was asked is one that was given, cleaned, less than two
      lifetimes ago: to this very query, or to one that clashes with it. */
  lemma EveryHitIsGiven(t: Ttl, start: int, events: seq<Event>, q: Query, configured: bool, reply: Option<Json>)
    ensures var c := Run(Empty(start), t, events);
      var (d, r) := Lookup(c, t, q, configured, reply);
      d.replies == c.replies && r.Answer? ==>
        Reusable(q.provider, r.payload)
        && exists i :: 0 <= i < |c.replies| && (c.replies[i].query == q || Clash(c.replies[i].query, q))
                       && r.payload == Cleaned(c.replies[i].query.provider, c.replies[i].raw)
                       && c.now - 2 * Life(t, q.provider) < c.replies[i].at <= c.now
  {
    hide Reusable, Cleaned, Honest, Lookup, Run, Hashed;
    RunHonest(t, start, events);
    var c := Run(Empty(start), t, events);
    LookupHonest(c, t, q, configured, reply);
    var (d, r) := Lookup(c, t, q, configured, reply);
    if d.replies == c.replies && r.Answer? {
      var at :| c.now - 2 * Life(t, q.provider) < at <= c.now && Given(c.replies, q.kind, Hashed(q), r.payload, at);
      var i :| 0 <= i < |c.replies| && Gave(c.replies[i], q.kind, Hashed(q), r.payload, at);
      SharedExactly(c.replies[i].query, q);
    }
  }

  /** What callers hand to Dikript: a number of digits, or a registration number cut down to digits and
      capital letters. Prembly gets the same, or a company type before a colon. */
  predicate Passed(q: Query) {
    q.provider == Dikript ==> forall i :: 0 <= i < |q.value| ==> '0' <= q.value[i] <= '9' || 'A' <= q.value[i] <= 'Z'
  }

  predicate PassedRun(events: seq<Event>) {
    forall i :: 0 <= i < |events| && events[i].Ask? ==> Passed(events[i].query)
  }

  lemma PassedIsPlain(q: Query)
    requires Passed(q)
    ensures Plain(q)
  {
    assert ("prembly:" + KindText(q.kind) + ":")[0] == 'p';
  }

  /** So for the values that callers pass the two providers never mix: in every run, an answer for which no
      provider was asked is one that this provider itself gave for this very value. */
  lemma EveryHitIsOwn(t: Ttl, start: int, events: seq<Event>, q: Query, configured: bool, reply: Option<Json>)
    requires PassedRun(events) && Passed(q)
    ensures var c := Run(Empty(start), t, events);
      var (d, r) := Lookup(c, t, q, configured, reply);
      d.replies == c.replies && r.Answer? ==>
        Reusable(q.provider, r.payload)
        && exists i :: 0 <= i < |c.replies| && c.replies[i].query == q
                       && r.payload == Cleaned(q.provider, c.replies[i].raw)
                       && c.now - 2 * Life(t, q.provider) < c.replies[i].at <= c.now
  {
    hide Reusable, Cleaned, Lookup, Run, Passed, Plain;
    forall i | 0 <= i < |events| && events[i].Ask? ensures Plain(events[i].query) { PassedIsPlain(events[i].query); }
    PassedIsPlain(q);
    RunHonest(t, start, events);
    EveryHitIsGiven(t, start, events, q, configured, reply);
    var c := Run(Empty(start), t, events);
    forall i | 0 <= i < |c.replies| ensures !Clash(c.replies[i].query, q) {
      PlainApart(c.replies[i].query, q);
    }
  }

  lemma PlainApart(a: Query, b: Query)
    requires Plain(a) && Plain(b)
    ensures !Clash(a, b)
  {
  }

  // ---- The lookups as written ----

  class LookupStore {
    const ttl: Ttl
    var now: int
    var memory: map<Slot, Entry>
    var table: map<Place, Row>
    ghost var replies: seq<Reply>

    constructor (ttl: Ttl, start: int)
      ensures State() == Empty(start) && this.ttl == ttl
    {
      this.ttl := ttl;
      now, memory, table, replies := start, map[], map[], [];
    }

    ghost function State(): Cache
      reads this
    {
      Cache(now, memory, table, replies)
    }

    method CacheGet(s: Slot) returns (r: Option<Json>)
      ensures r == Remembered(State(), s)
    {
      if s in memory && now < memory[s].expires { return Some(memory[s].payload); }
      return None;
    }

    method TableGet(place: Place, cutoff: int) returns (r: Option<Json>)
      ensures r == if place in table && table[place].fetchedAt >= cutoff then Some(table[place].payload) else None
    {
      if place in table && table[place].fetchedAt >= cutoff { return Some(table[place].payload); }
      return None;
    }

    method DikriptLookup(kind: Kind, value: string, configured: bool, reply: Option<Json>) returns (r: Result)
      modifies this
      ensures (State(), r) == Lookup(old(State()), ttl, Query(Dikript, kind, value), configured, reply)
    {
      hide DikriptReusable, DikriptClean;
      if !configured { return Unavailable; }
      var slot, place := Slot(Dikript, kind, value), Place(kind, value);
      var remembered := CacheGet(slot);
      if remembered.Some? && DikriptReusable(remembered.value) { return Answer(remembered.value); }
      var stored := TableGet(place, now - ttl.dikript);
      if stored.Some? && DikriptReusable(stored.value) {
        memory := memory[slot := Entry(stored.value, now + ttl.dikript)];
        return Answer(stored.value);
      }
      if reply.None? { return Unavailable; }
      replies := replies + [Reply(Query(Dikript, kind, value), reply.value, now)];
      var payload := DikriptClean(reply.value);
      if DikriptReusable(payload) {
        table := table[place := Row(payload, now)];
        memory := memory[slot := Entry(payload, now + ttl.dikript)];
      }
      return Answer(payload);
    }

    method PremblyLookup(kind: Kind, value: string, configured: bool, reply: Option<Json>) returns (r: Result)
      modifies this
      ensures (State(), r) == Lookup(old(State()), ttl, Query(Prembly, kind, value), configured, reply)
    {
      hide PremblyReusable, PremblyClean;
      if !configured { return Unavailable; }
      var hashed := Hashed(Query(Prembly, kind, value));
      var slot, place := Slot(Prembly, kind, hashed), Place(kind, hashed);
      var remembered := CacheGet(slot);
      if remembered.Some? && PremblyReusable(remembered.value) { return Answer(remembered.value); }
      var stored := TableGet(place, now - ttl.prembly);
      if stored.Some? && PremblyReusable(stored.value) {
        memory := memory[slot := Entry(stored.value, now + ttl.prembly)];
        return Answer(stored.value);
      }
      if reply.None? { return Unavailable; }
      replies := replies + [Reply(Query(Prembly, kind, value), reply.value, now)];
      var payload := PremblyClean(Decoded(reply.value));
      if PremblyReusable(payload) {
        table := table[place := Row(payload, now)];
        memory := memory[slot := Entry(payload, now + ttl.prembly)];
      }
      return Answer(payload);
    }
  }
}
