/**
 * The Redis server the handlers talk to through one shared client: a key space of values with
 * optional timeouts. Values are kept as the records the handlers serialise (`JSON.stringify` and
 * `JSON.parse` are taken to round-trip), and a list value holds queued e-mail jobs.
 */
module Redis {
  import opened Wrappers
  import Glob
  import BookingModel
  import HotelModel
  import StoreModel

  datatype JobKind = BookingConfirmation | BookingCancellation | LeadNotice

  /** A job pushed to `email_queue`: its type, recipient, subject and the booking or lead id. */
  datatype EmailJob = EmailJob(kind: JobKind, to: Option<string>, subject: string, ref: string)

  /** The body `getHotels` caches and answers with. */
  datatype Page = Page(page: int, limit: int, total: nat, pages: int, hotels: seq<HotelModel.Hotel>)

  datatype Value =
    | Count(n: int)
    | BookingDoc(booking: BookingModel.Booking)
    | BookingList(bookings: seq<BookingModel.Booking>)
    | HotelDoc(hotel: HotelModel.Hotel)
    | HotelPage(page: Page)
    | StoreDoc(store: StoreModel.Store)
    | StoreList(stores: seq<StoreModel.Store>)
    | Jobs(jobs: seq<EmailJob>)

  /** Which commands the client object offers (`typeof redisClient.x === "function"`); `setCmd` is `set`. */
  datatype Caps = Caps(get: bool, setCmd: bool, keys: bool, del: bool, rPush: bool, incr: bool, expire: bool, ttl: bool)

  /** The keys `pattern` selects, as `KEYS pattern` lists them. */
  function Matching(kv: map<string, Value>, pattern: string): (ks: set<string>)
    ensures forall k :: k in ks <==> k in kv && Glob.Matches(pattern, k)
  {
    set k | k in kv && Glob.Matches(pattern, k)
  }

  /** The key space once `keys` are deleted. */
  function Without<V>(kv: map<string, V>, keys: set<string>): (r: map<string, V>)
    ensures forall k :: k in r <==> k in kv && k !in keys
    ensures forall k :: k in r ==> r[k] == kv[k]
  {
    map k | k in kv && k !in keys :: kv[k]
  }

  class Client {
    const caps: Caps
    /** Whether the server answers; a command on a client that cannot reach it throws. */
    var up: bool
    var kv: map<string, Value>
    /** Seconds left before a key with a timeout disappears. */
    var expiry: map<string, int>

    predicate Valid()
      reads this
    {
      expiry.Keys <= kv.Keys && forall k :: k in expiry ==> expiry[k] > 0
    }

    constructor (caps: Caps, up: bool)
      ensures this.caps == caps && this.up == up
      ensures kv == map[] && expiry == map[]
      ensures Valid()
    {
      this.caps := caps;
      this.up := up;
      kv := map[];
      expiry := map[];
    }

    /** `GET key`: the value, or nothing; reading a list key is a type error. */
    method Get(key: string) returns (ok: bool, v: Option<Value>)
      ensures ok <==> up && !(key in kv && kv[key].Jobs?)
      ensures v == if ok && key in kv then Some(kv[key]) else None
    {
      ok := up && !(key in kv && kv[key].Jobs?);
      v := if ok && key in kv then Some(kv[key]) else None;
    }

    /** `SET key value EX seconds`. */
    method Set(key: string, v: Value, seconds: int) returns (ok: bool)
      requires Valid() && seconds > 0
      modifies this
      ensures Valid() && ok == up && up == old(up)
      ensures kv == if ok then old(kv)[key := v] else old(kv)
      ensures expiry == if ok then old(expiry)[key := seconds] else old(expiry)
    {
      ok := up;
      if ok {
        kv := kv[key := v];
        expiry := expiry[key := seconds];
      }
    }

    /** `SET key value NX EX seconds`: stores only when the key is absent, and says whether it did. */
    method SetIfAbsent(key: string, v: Value, seconds: int) returns (ok: bool, stored: bool)
      requires Valid() && seconds > 0
      modifies this
      ensures Valid() && ok == up && up == old(up)
      ensures stored <==> ok && key !in old(kv)
      ensures kv == if stored then old(kv)[key := v] else old(kv)
      ensures expiry == if stored then old(expiry)[key := seconds] else old(expiry)
    {
      ok := up;
      stored := ok && key !in kv;
      if stored {
        kv := kv[key := v];
        expiry := expiry[key := seconds];
      }
    }

    /** `KEYS pattern`. */
    method Keys(pattern: string) returns (ok: bool, ks: set<string>)
      ensures ok == up
      ensures ks == if ok then Matching(kv, pattern) else {}
    {
      ok := up;
      ks := if ok then Matching(kv, pattern) else {};
    }

    /** `DEL k1 k2 ...`. */
    method Del(ks: set<string>) returns (ok: bool)
      requires Valid()
      modifies this
      ensures Valid() && ok == up && up == old(up)
      ensures kv == if ok then Without(old(kv), ks) else old(kv)
      ensures expiry == if ok then Without(old(expiry), ks) else old(expiry)
    {
      ok := up;
      if ok {
        kv := Without(kv, ks);
        expiry := Without(expiry, ks);
      }
    }

    /** `RPUSH key job`: appends to the list at `key`, creating it; a non-list key is a type error. */
    method RPush(key: string, job: EmailJob) returns (ok: bool)
      requires Valid()
      modifies this
      ensures Valid() && up == old(up) && expiry == old(expiry)
      ensures ok <==> old(up) && (key !in old(kv) || old(kv)[key].Jobs?)
      ensures kv == if !ok then old(kv)
                    else old(kv)[key := Jobs((if key in old(kv) then old(kv)[key].jobs else []) + [job])]
    {
      ok := up && (key !in kv || kv[key].Jobs?);
      if ok {
        kv := kv[key := Jobs((if key in kv then kv[key].jobs else []) + [job])];
      }
    }

    /** `INCR key`: a missing key counts from 0; the key keeps its timeout. */
    method Incr(key: string) returns (ok: bool, n: int)
      requires Valid()
      modifies this
      ensures Valid() && up == old(up) && expiry == old(expiry)
      ensures ok <==> old(up) && (key !in old(kv) || old(kv)[key].Count?)
      ensures ok ==> n == (if key in old(kv) then old(kv)[key].n + 1 else 1) && kv == old(kv)[key := Count(n)]
      ensures !ok ==> kv == old(kv)
    {
      ok := up && (key !in kv || kv[key].Count?);
      n := 0;
      if ok {
        n := if key in kv then kv[key].n + 1 else 1;
        kv := kv[key := Count(n)];
      }
    }

    /** `EXPIRE key seconds`: no effect on a missing key; a timeout that is not positive deletes the key. */
    method Expire(key: string, seconds: int) returns (ok: bool)
      requires Valid()
      modifies this
      ensures Valid() && ok == up && up == old(up)
      ensures !ok || key !in old(kv) ==> kv == old(kv) && expiry == old(expiry)
      ensures ok && key in old(kv) && seconds > 0 ==> kv == old(kv) && expiry == old(expiry)[key := seconds]
      ensures ok && key in old(kv) && seconds <= 0 ==> kv == Without(old(kv), {key}) && expiry == Without(old(expiry), {key})
    {
      ok := up;
      if ok && key in kv {
        if seconds > 0 {
          expiry := expiry[key := seconds];
        } else {
          kv := Without(kv, {key});
          expiry := Without(expiry, {key});
        }
      }
    }

    /** `TTL key`: seconds left, -1 for a key without timeout, -2 for a missing key. */
    method Ttl(key: string) returns (ok: bool, t: int)
      ensures ok == up
      ensures ok ==> t == (if key !in kv then -2 else if key in expiry then expiry[key] else -1)
    {
      ok := up;
      t := 0;
      if ok {
        t := if key !in kv then -2 else if key in expiry then expiry[key] else -1;
      }
    }

    /** The passage of `seconds`: keys whose timeout runs out vanish, the others' timeouts shrink. */
    method Elapse(seconds: nat)
      requires Valid()
      modifies this
      ensures Valid() && up == old(up)
      ensures kv == Without(old(kv), Expired(old(expiry), seconds))
      ensures forall k :: k in expiry <==> k in old(expiry) && old(expiry)[k] > seconds
      ensures forall k :: k in expiry ==> expiry[k] == old(expiry)[k] - seconds
    {
      var gone := Expired(expiry, seconds);
      kv := Without(kv, gone);
      expiry := map k | k in expiry && k !in gone :: expiry[k] - seconds;
    }
  }

  function Expired(expiry: map<string, int>, seconds: nat): (gone: set<string>)
    ensures forall k :: k in gone <==> k in expiry && expiry[k] <= seconds
  {
    set k | k in expiry && expiry[k] <= seconds
  }
}
