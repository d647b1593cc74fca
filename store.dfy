/** The shared Redis store as the core sees it through `StringRedisTemplate`:
    string keys, values with an optional expiry, and the handful of commands
    the core issues (GET, SET with and without expiry, SET NX EX, DEL, INCR,
    EXISTS). Expiry is judged against the store's own clock, in milliseconds;
    an expired entry reads as absent. */
module Store {
  import opened Common

  /** The `TimeUnit`s the core hands to Redis; all are whole seconds. */
  datatype TimeUnit = Seconds | Minutes | Hours | Days

  /** `unit.toSeconds(d)`. */
  function ToSeconds(unit: TimeUnit, d: int): (s: int)
    ensures d > 0 ==> s >= d
  {
    match unit
    case Seconds => d
    case Minutes => d * 60
    case Hours => d * 3600
    case Days => d * 86400
  }

  /** Redis keeps a value written by SET as text; one created by INCR is an integer. */
  datatype Value = Text(s: string) | Counter(n: Long)

  /** A stored value and the store time (ms) at which it expires, if ever. */
  datatype Entry = Entry(value: Value, expireAt: Option<int>)

  type Kv = map<string, Entry>

  predicate Live(e: Entry, clock: int) {
    e.expireAt.None? || clock < e.expireAt.value
  }

  /** EXISTS: the key holds an entry that has not expired. */
  predicate Present(kv: Kv, clock: int, key: string) {
    key in kv && Live(kv[key], clock)
  }

  /** The expiry time of an entry written now with a TTL of `seconds`. */
  function ExpiryAfter(clock: int, seconds: Positive): (t: int)
    ensures t > clock
  {
    clock + 1000 * seconds
  }

  /** GET, as `StringRedisTemplate` returns it: the text, an integer in decimal,
      or null for a missing or expired key. */
  function GetText(kv: Kv, clock: int, key: string): (r: Option<string>)
    ensures r.Some? <==> Present(kv, clock, key)
  {
    if !Present(kv, clock, key) then None
    else match kv[key].value
      case Text(s) => Some(s)
      case Counter(n) => Some(LongToString(n))
  }

  /** SET key text, with `EX seconds` when a TTL is given; any earlier TTL is dropped. */
  function SetText(kv: Kv, clock: int, key: string, text: string, ttl: Option<Positive>): (r: Kv)
    ensures GetText(r, clock, key) == Some(text)
    ensures key in r && r[key].expireAt == (if ttl.Some? then Some(ExpiryAfter(clock, ttl.value)) else None)
    ensures r - {key} == kv - {key}
  {
    var expireAt := match ttl
      case None => None
      case Some(seconds) => Some(ExpiryAfter(clock, seconds));
    kv[key := Entry(Text(text), expireAt)]
  }

  /** SET key text NX EX seconds: writes only when the key is absent or expired. */
  function SetIfAbsent(kv: Kv, clock: int, key: string, text: string, ttl: Positive): (r: (bool, Kv))
    ensures r.0 <==> !Present(kv, clock, key)
    ensures r.0 ==> r.1 == kv[key := Entry(Text(text), Some(ExpiryAfter(clock, ttl)))]
    ensures !r.0 ==> r.1 == kv
  {
    if Present(kv, clock, key) then (false, kv)
    else (true, SetText(kv, clock, key, text, Some(ttl)))
  }

  /** DEL key. */
  function Del(kv: Kv, key: string): (r: Kv)
    ensures key !in r && r - {key} == kv - {key}
    ensures key !in kv ==> r == kv
  {
    kv - {key}
  }

  /** INCR key: an absent or expired key becomes the integer 1 with no expiry;
      an integer grows by one and keeps its expiry; text is refused, and so is
      an increment past the largest 64-bit integer. */
  function Incr(kv: Kv, clock: int, key: string): (r: (Outcome<Long>, Kv))
    ensures r.1 - {key} == kv - {key}
    ensures r.0.Throw? ==> r.1 == kv
    ensures r.0.Return? ==> r.0.value >= 1 || Present(kv, clock, key)
    ensures r.0.Return? ==> r.0.value == CounterAt(kv, clock, key) + 1
    ensures r.0.Throw? <==> Present(kv, clock, key) && (kv[key].value.Text? || kv[key].value.n == LONG_MAX)
    ensures r.0 == Throw(NotAnInteger) <==> Present(kv, clock, key) && kv[key].value.Text?
    ensures r.0.Return? ==> key in r.1 && r.1[key] == Entry(Counter(r.0.value), if Present(kv, clock, key) then kv[key].expireAt else None)
  {
    if !Present(kv, clock, key) then (Return(1), kv[key := Entry(Counter(1), None)])
    else match kv[key].value
      case Text(_) => (Throw(NotAnInteger), kv)
      case Counter(n) =>
        if n == LONG_MAX then (Throw(IncrementOverflow), kv)
        else (Return(n + 1), kv[key := Entry(Counter(n + 1), kv[key].expireAt)])
  }

  /** The counter a key holds, zero when absent: what INCR adds one to. */
  function CounterAt(kv: Kv, clock: int, key: string): int {
    if Present(kv, clock, key) && kv[key].value.Counter? then kv[key].value.n else 0
  }

  /** The store server. All clients of the core share one instance. */
  class Redis {
    var kv: Kv
    var clock: int

    constructor(clock: int)
      ensures kv == map[] && this.clock == clock
    {
      kv := map[];
      this.clock := clock;
    }

    method Get(key: string) returns (r: Option<string>)
      ensures r == GetText(kv, clock, key)
    {
      if key in kv && Live(kv[key], clock) {
        match kv[key].value {
          case Text(s) => r := Some(s);
          case Counter(n) => r := Some(LongToString(n));
        }
      } else {
        r := None;
      }
    }

    method HasKey(key: string) returns (b: bool)
      ensures b == Present(kv, clock, key)
    {
      b := key in kv && Live(kv[key], clock);
    }

    method Set(key: string, text: string, ttl: Option<Positive>)
      modifies this
      ensures kv == SetText(old(kv), clock, key, text, ttl) && clock == old(clock)
    {
      match ttl {
        case None => kv := kv[key := Entry(Text(text), None)];
        case Some(seconds) => kv := kv[key := Entry(Text(text), Some(ExpiryAfter(clock, seconds)))];
      }
    }

    method SetNx(key: string, text: string, ttl: Positive) returns (ok: bool)
      modifies this
      ensures (ok, kv) == SetIfAbsent(old(kv), clock, key, text, ttl) && clock == old(clock)
    {
      ok := !(key in kv && Live(kv[key], clock));
      if ok {
        kv := kv[key := Entry(Text(text), Some(ExpiryAfter(clock, ttl)))];
      }
    }

    method Delete(key: string)
      modifies this
      ensures kv == Del(old(kv), key) && clock == old(clock)
    {
      kv := kv - {key};
    }

    method Increment(key: string) returns (r: Outcome<Long>)
      modifies this
      ensures (r, kv) == Incr(old(kv), clock, key) && clock == old(clock)
    {
      if !(key in kv && Live(kv[key], clock)) {
        r := Return(1);
        kv := kv[key := Entry(Counter(1), None)];
      } else {
        var e := kv[key];
        match e.value {
          case Text(_) => r := Throw(NotAnInteger);
          case Counter(n) =>
            if n == LONG_MAX {
              r := Throw(IncrementOverflow);
            } else {
              r := Return(n + 1);
              kv := kv[key := Entry(Counter(n + 1), e.expireAt)];
            }
        }
      }
    }

    /** Time passing on the server, for instance while a client sleeps. */
    method Elapse(ms: nat)
      modifies this
      ensures clock == old(clock) + ms && kv == old(kv)
    {
      clock := clock + ms;
    }
  }
}
