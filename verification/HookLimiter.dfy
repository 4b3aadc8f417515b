/** The webhook rate limit (internal/brain/api/hooks.go): a token bucket per trigger, times in seconds
    and tokens as reals. */
module HookLimiter {
  const BURST := 30.0
  const REFILL := 60.0   // hookRefill

  datatype Bucket = Bucket(tokens: real, last: real)

  type Buckets = map<string, Bucket>

  datatype Delivery = Delivery(id: string, at: real)

  function Min(a: real, b: real): real { if a < b then a else b }
  function Max(a: real, b: real): real { if a > b then a else b }

  function Refilled(b: Bucket, now: real): Bucket {
    if now > b.last then Bucket(Min(BURST, b.tokens + (now - b.last) * BURST / REFILL), now) else b
  }

  function At(bs: Buckets, d: Delivery): Bucket {
    Refilled(if d.id in bs then bs[d.id] else Bucket(BURST, d.at), d.at)
  }

  predicate Allows(bs: Buckets, d: Delivery) {
    At(bs, d).tokens >= 1.0
  }

  function Spent(b: Bucket): Bucket {
    b.(tokens := b.tokens - 1.0)
  }

  function After(bs: Buckets, d: Delivery): Buckets {
    bs[d.id := if Allows(bs, d) then Spent(At(bs, d)) else At(bs, d)]
  }

  function Run(bs: Buckets, ds: seq<Delivery>): Buckets {
    if ds == [] then bs else After(Run(bs, ds[..|ds|-1]), ds[|ds|-1])
  }

  /** How many of `ds` were let through for one trigger. */
  function Accepted(bs: Buckets, ds: seq<Delivery>, id: string): nat {
    if ds == [] then 0
    else
      var front, d := ds[..|ds|-1], ds[|ds|-1];
      Accepted(bs, front, id) + if d.id == id && Allows(Run(bs, front), d) then 1 else 0
  }

  ghost predicate Sound(bs: Buckets) {
    forall i | i in bs :: 0.0 <= bs[i].tokens <= BURST
  }

  predicate Ordered(ds: seq<Delivery>) {
    forall j, k | 0 <= j < k < |ds| :: ds[j].at <= ds[k].at
  }

  lemma AfterKeepsSound(bs: Buckets, d: Delivery)
    requires Sound(bs)
    ensures Sound(After(bs, d))
  {
  }

  lemma {:induction false} RunKeepsSound(ds: seq<Delivery>)
    ensures Sound(Run(map[], ds))
  {
    if ds != [] {
      RunKeepsSound(ds[..|ds|-1]);
      AfterKeepsSound(Run(map[], ds[..|ds|-1]), ds[|ds|-1]);
    }
  }

  // ---------------------------------------------------------------- the window bound

  /** The latest time seen, whatever order times come in. */
  function Latest(t: real, ds: seq<Delivery>): real {
    if ds == [] then t else Max(Latest(t, ds[..|ds|-1]), ds[|ds|-1].at)
  }

  lemma TrickleStep(e: Buckets, d: Delivery, id: string, t: real, accepted: nat)
    requires Sound(e) && t <= d.at
    requires id in e && e[id].last < t ==> accepted == 0
    requires accepted as real + (if id in e then e[id].tokens else BURST)
               <= BURST + (if id in e && e[id].last > t then (e[id].last - t) / 2.0 else 0.0)
    ensures var f, n := After(e, d), accepted + if d.id == id && Allows(e, d) then 1 else 0;
            && (id in f && f[id].last < t ==> n == 0)
            && n as real + (if id in f then f[id].tokens else BURST)
                 <= BURST + (if id in f && f[id].last > t then (f[id].last - t) / 2.0 else 0.0)
  {
  }

  /** From the first delivery on: at most a burst, and one more for every two seconds. */
  lemma {:induction false} BurstAndTrickle(bs: Buckets, ds: seq<Delivery>, id: string, t: real)
    requires Sound(bs) && (id in bs ==> bs[id].last <= t) && forall k | 0 <= k < |ds| :: t <= ds[k].at
    ensures Accepted(bs, ds, id) as real <= BURST + (Latest(t, ds) - t) / 2.0
    ensures var e := Run(bs, ds);
            && Sound(e) && Latest(t, ds) >= t
            && (id in bs ==> id in e)
            && (id in e ==> e[id].last <= Latest(t, ds))
            && (id in e && e[id].last < t ==> Accepted(bs, ds, id) == 0)
            && Accepted(bs, ds, id) as real + (if id in e then e[id].tokens else BURST)
                 <= BURST + (if id in e && e[id].last > t then (e[id].last - t) / 2.0 else 0.0)
  {
    if ds != [] {
      var front, d := ds[..|ds|-1], ds[|ds|-1];
      BurstAndTrickle(bs, front, id, t);
      AfterKeepsSound(Run(bs, front), d);
      TrickleStep(Run(bs, front), d, id, t, Accepted(bs, front, id));
    }
  }

  lemma {:induction false} LatestIn(ds: seq<Delivery>, t1: real, t2: real)
    requires t1 <= t2 && forall k | 0 <= k < |ds| :: ds[k].at <= t2
    ensures Latest(t1, ds) <= t2
  {
    if ds != [] { LatestIn(ds[..|ds|-1], t1, t2); }
  }

  lemma {:induction false} NoBucketIsAhead(ds: seq<Delivery>, t: real)
    requires forall k | 0 <= k < |ds| :: ds[k].at <= t
    ensures forall i | i in Run(map[], ds) :: Run(map[], ds)[i].last <= t
  {
    if ds != [] { NoBucketIsAhead(ds[..|ds|-1], t); }
  }

  /** For every history with a clock that does not run back, any window of it lets through at most 30
      deliveries per trigger and one more for every two seconds of its length. */
  lemma WindowBound(before: seq<Delivery>, window: seq<Delivery>, id: string, t1: real, t2: real)
    requires t1 <= t2
    requires forall k | 0 <= k < |before| :: before[k].at <= t1
    requires forall k | 0 <= k < |window| :: t1 <= window[k].at <= t2
    ensures Accepted(Run(map[], before), window, id) as real <= 30.0 + (t2 - t1) / 2.0
  {
    RunKeepsSound(before);
    NoBucketIsAhead(before, t1);
    BurstAndTrickle(Run(map[], before), window, id, t1);
    LatestIn(window, t1, t2);
  }

  /** The bound is met: a fresh trigger's first 30 at one moment all pass, and no more. */
  lemma {:induction false} BurstPasses(ds: seq<Delivery>, id: string, t: real)
    requires forall k | 0 <= k < |ds| :: ds[k] == Delivery(id, t)
    ensures Accepted(map[], ds, id) == if |ds| <= 30 then |ds| else 30
    ensures ds != [] ==> id in Run(map[], ds) && Run(map[], ds)[id] == Bucket(30.0 - Accepted(map[], ds, id) as real, t)
  {
    if ds != [] { BurstPasses(ds[..|ds|-1], id, t); }
  }

  // ---------------------------------------------------------------- independence

  function Only(ds: seq<Delivery>, id: string): seq<Delivery> {
    if ds == [] then []
    else Only(ds[..|ds|-1], id) + if ds[|ds|-1].id == id then [ds[|ds|-1]] else []
  }

  predicate SameBucket(a: Buckets, b: Buckets, id: string) {
    (id in a <==> id in b) && (id in a ==> a[id] == b[id])
  }

  /** What happens to a trigger is decided by its own deliveries alone. */
  lemma {:induction false} OthersDoNotMatter(bs: Buckets, ds: seq<Delivery>, id: string)
    ensures SameBucket(Run(bs, ds), Run(bs, Only(ds, id)), id)
    ensures Accepted(bs, ds, id) == Accepted(bs, Only(ds, id), id)
  {
    if ds != [] {
      var front, d := ds[..|ds|-1], ds[|ds|-1];
      OthersDoNotMatter(bs, front, id);
      if d.id == id {
        RunNext(bs, Only(front, id), d, id);
        BucketDecides(Run(bs, front), Run(bs, Only(front, id)), d);
      } else {
        assert Only(ds, id) == Only(front, id);
      }
    }
  }

  lemma RunNext(bs: Buckets, ds: seq<Delivery>, d: Delivery, id: string)
    ensures Run(bs, ds + [d]) == After(Run(bs, ds), d)
    ensures Accepted(bs, ds + [d], id) == Accepted(bs, ds, id) + if d.id == id && Allows(Run(bs, ds), d) then 1 else 0
  {
    assert (ds + [d])[..|ds + [d]|-1] == ds;
  }

  lemma BucketDecides(a: Buckets, b: Buckets, d: Delivery)
    requires SameBucket(a, b, d.id)
    ensures Allows(a, d) == Allows(b, d) && SameBucket(After(a, d), After(b, d), d.id)
  {
  }

  // ---------------------------------------------------------------- virtual scheduling

  /** One stored time per trigger: when the next delivery would be due at the sustained rate. */
  type Due = map<string, real>

  const GAP := 2.0
  const TOLERANCE := 58.0

  function DueAt(due: Due, d: Delivery): real {
    if d.id in due then Max(due[d.id], d.at) else d.at
  }

  predicate Conforms(due: Due, d: Delivery) {
    DueAt(due, d) - d.at <= TOLERANCE
  }

  function Scheduled(due: Due, d: Delivery): Due {
    if Conforms(due, d) then due[d.id := DueAt(due, d) + GAP] else due
  }

  function Decisions(bs: Buckets, ds: seq<Delivery>): seq<bool> {
    if ds == [] then [] else Decisions(bs, ds[..|ds|-1]) + [Allows(Run(bs, ds[..|ds|-1]), ds[|ds|-1])]
  }

  function Schedule(due: Due, ds: seq<Delivery>): Due {
    if ds == [] then due else Scheduled(Schedule(due, ds[..|ds|-1]), ds[|ds|-1])
  }

  function Verdicts(due: Due, ds: seq<Delivery>): seq<bool> {
    if ds == [] then [] else Verdicts(due, ds[..|ds|-1]) + [Conforms(Schedule(due, ds[..|ds|-1]), ds[|ds|-1])]
  }

  /** The bucket lacks half a token for every second the due time is ahead. */
  ghost predicate Agree(bs: Buckets, due: Due, now: real) {
    forall i | i in bs || i in due ::
      i in bs && i in due && bs[i].last <= now && bs[i].tokens == BURST - Max(0.0, due[i] - bs[i].last) / GAP
  }

  lemma StepAgrees(bs: Buckets, due: Due, t: real, d: Delivery)
    requires Agree(bs, due, t) && t <= d.at
    ensures Allows(bs, d) <==> Conforms(due, d)
    ensures Agree(After(bs, d), Scheduled(due, d), d.at)
  {
  }

  /** With a clock that does not run back every decision is the one virtual scheduling makes from its
      single stored time. */
  lemma {:induction false} SameAsScheduling(ds: seq<Delivery>)
    requires Ordered(ds)
    ensures Decisions(map[], ds) == Verdicts(map[], ds)
    ensures ds != [] ==> Agree(Run(map[], ds), Schedule(map[], ds), ds[|ds|-1].at)
  {
    if ds != [] {
      var front, d := ds[..|ds|-1], ds[|ds|-1];
      SameAsScheduling(front);
      var t := if front == [] then d.at else front[|front|-1].at;
      StepAgrees(Run(map[], front), Schedule(map[], front), t, d);
    }
  }

  // ---------------------------------------------------------------- the limiter

  class HookBucket {
    var tokens: real
    var last: real

    constructor (tokens: real, last: real)
      ensures this.tokens == tokens && this.last == last
    {
      this.tokens, this.last := tokens, last;
    }

    ghost function Value(): Bucket
      reads this
    {
      Bucket(tokens, last)
    }

    /** Refill for the time passed, and take one token if there is one. */
    method Take(now: real) returns (ok: bool)
      modifies this
      ensures ok == (Refilled(old(Value()), now).tokens >= 1.0)
      ensures Value() == if ok then Spent(Refilled(old(Value()), now)) else Refilled(old(Value()), now)
    {
      var elapsed := now - last;
      if elapsed > 0.0 {
        tokens := Min(BURST, tokens + elapsed * BURST / REFILL);
        last := now;
      }
      ok := tokens >= 1.0;
      if ok {
        tokens := tokens - 1.0;
      }
    }
  }

  class Limiter {
    var buckets: map<string, HookBucket>

    constructor ()
      ensures Valid() && fresh(buckets.Values) && Contents() == map[]
    {
      buckets := map[];
    }

    /** Every trigger has a bucket of its own. */
    ghost predicate Valid()
      reads this
    {
      forall i, j | i in buckets && j in buckets && buckets[i] == buckets[j] :: i == j
    }

    ghost function Contents(): Buckets
      reads this, buckets.Values
    {
      map i | i in buckets :: buckets[i].Value()
    }

    /** The trigger's bucket, made full when it is its first delivery. */
    method Find(id: string, now: real)
      requires Valid()
      modifies this
      ensures Valid() && fresh(buckets.Values - old(buckets.Values)) && id in buckets
      ensures Contents()
              == old(Contents())[id := if id in old(buckets) then old(Contents())[id] else Bucket(BURST, now)]
    {
      if id !in buckets {
        var made := new HookBucket(BURST, now);
        buckets := buckets[id := made];
      }
    }

    method Allow(id: string, now: real) returns (ok: bool)
      requires Valid()
      modifies this, buckets.Values
      ensures Valid() && fresh(buckets.Values - old(buckets.Values))
      ensures ok == Allows(old(Contents()), Delivery(id, now))
      ensures Contents() == After(old(Contents()), Delivery(id, now))
    {
      Find(id, now);
      ghost var was := Contents();
      assert was[id] == buckets[id].Value();
      ok := buckets[id].Take(now);
      assert Contents() == was[id := buckets[id].Value()];
    }
  }
}
