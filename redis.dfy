/**
 * The cache: a Redis key space of string keys. A value the services write as JSON is kept
 * as the typed payload it encodes, so that decoding it is a match on the payload; a plain
 * string value is `Text`. Expiry times are not modelled: a key stays until it is deleted.
 */
module Redis {
  import opened Wrappers
  import opened Strings
  import opened Model

  datatype Entry =
    | Text(s: string)
    | OtpJson(otp: OtpData)
    | SessionJson(session: CustomerSession)
    | ProductsJson(products: seq<Product>)
    | CategoriesJson(categories: seq<Category>)
    | SettingsJson(settings: seq<Setting>)

  /** A run of digits with no superfluous leading zero. */
  predicate Canonical(s: string) {
    |s| > 0 && AllDigits(s) && (s[0] != '0' || |s| == 1)
  }

  /**
   * The integer a string value holds for INCR: the canonical decimal form of an int64,
   * with a '-' sign for negative values and no "-0".
   */
  function RedisInteger(s: string): (r: Option<int>)
    ensures r.Some? ==> MinInt64 <= r.value <= MaxInt64
  {
    if |s| > 1 && s[0] == '-' && Canonical(s[1..]) && s[1..] != "0" && ParseDigits(s[1..]) <= -MinInt64 then
      Some(-(ParseDigits(s[1..]) as int))
    else if Canonical(s) && ParseDigits(s) <= MaxInt64 then
      Some(ParseDigits(s))
    else
      None
  }

  /** What INCR writes, INCR reads back. */
  lemma RedisIntegerItoa(n: int)
    requires MinInt64 <= n <= MaxInt64
    ensures RedisInteger(Itoa(n)) == Some(n)
  {
    if n < 0 {
      var t := Itoa(n)[1..];
      assert t == NatToString(-n);
      NatToStringLeadingDigit(-n);
      ParseNatToString(-n);
      assert t != "0" by {
        assert t[0] != '0';
      }
    } else {
      NatToStringLeadingDigit(n);
      ParseNatToString(n);
    }
  }

  const ErrNotInteger: string := "ERR value is not an integer or out of range"
  const ErrOverflow: string := "ERR increment or decrement would overflow"

  /** The reply of INCR and the key space after it. */
  datatype IncrOutcome = IncrOutcome(reply: Result<int>, data: map<string, Entry>)

  /**
   * INCR as one atomic step: a missing key counts from 0, a canonical integer string goes
   * up by one, and any other value (including every JSON payload) is an error that leaves
   * the key space as it was.
   */
  function IncrStep(m: map<string, Entry>, key: string): (o: IncrOutcome)
    ensures o.reply.Ok? ==> o.data == m[key := Text(Itoa(o.reply.value))]
    ensures o.reply.Ok? ==> MinInt64 < o.reply.value <= MaxInt64
    ensures o.reply.Err? ==> o.data == m
    ensures key !in m ==> o.reply == Ok(1)
    ensures (key in m && m[key].Text? && RedisInteger(m[key].s).Some? && RedisInteger(m[key].s).value < MaxInt64)
      ==> o.reply == Ok(RedisInteger(m[key].s).value + 1)
  {
    var current := if key in m then (if m[key].Text? then RedisInteger(m[key].s) else None) else Some(0);
    match current
    case None => IncrOutcome(Err(ErrNotInteger), m)
    case Some(n) =>
      if n == MaxInt64 then IncrOutcome(Err(ErrOverflow), m)
      else IncrOutcome(Ok(n + 1), m[key := Text(Itoa(n + 1))])
  }

  /** Two INCRs of one counter give consecutive replies. */
  lemma IncrTwice(m: map<string, Entry>, key: string)
    requires IncrStep(m, key).reply.Ok?
    requires IncrStep(m, key).reply.value < MaxInt64
    ensures IncrStep(IncrStep(m, key).data, key).reply == Ok(IncrStep(m, key).reply.value + 1)
  {
    RedisIntegerItoa(IncrStep(m, key).reply.value);
  }

  /** A Redis client: the key space it reaches, updated by each command. */
  class Client {
    var data: map<string, Entry>

    constructor ()
      ensures data == map[]
    {
      data := map[];
    }

    /** GET: the value under `key`, or None (redis.Nil) when there is none. */
    function Get(key: string): (r: Option<Entry>)
      reads this
      ensures r.Some? <==> key in data
      ensures r.Some? ==> r.value == data[key]
    {
      if key in data then Some(data[key]) else None
    }

    /** EXISTS on one key. */
    predicate Exists(key: string)
      reads this
    {
      key in data
    }

    /** SET; the expiry argument is dropped. */
    method Set(key: string, v: Entry)
      modifies this
      ensures data == old(data)[key := v]
    {
      data := data[key := v];
    }

    /** DEL on one key; deleting a missing key is not an error. */
    method Del(key: string)
      modifies this
      ensures data == old(data) - {key}
    {
      data := data - {key};
    }

    /** INCR. */
    method Incr(key: string) returns (reply: Result<int>)
      modifies this
      ensures IncrStep(old(data), key) == IncrOutcome(reply, data)
    {
      var o := IncrStep(data, key);
      reply := o.reply;
      data := o.data;
    }
  }
}
