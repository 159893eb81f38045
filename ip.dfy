/**
 * `IPTool` (app/tools/ip.ts): address validation and classification, the
 * public-address lookup over three echo services, and the geolocation lookup
 * behind a process-wide cache with a five-minute time to live.
 *
 * Every network answer is an input: an `EchoOutcome` per echo service and one
 * `GeoOutcome` for the geolocation service. The clock reading `now` is an input.
 */
module Ip {
  import opened Wrappers
  import opened JsText

  // ---------------------------------------------------------------------------
  // Data model
  // ---------------------------------------------------------------------------

  datatype IPType = IPv4 | IPv6

  datatype Location = Location(
    country: string, region: string, city: string,
    latitude: real, longitude: real, timezone: string)

  datatype Security = Security(isProxy: bool, isVpn: bool, isTor: bool, isThreat: bool)

  datatype IPInfo = IPInfo(
    ip: string, ipType: IPType, location: Location,
    isp: string, organization: string, asn: string, security: Security)

  /** One cache slot: the record and the time it was stored. */
  datatype CacheEntry = CacheEntry(data: IPInfo, timestamp: int)

  /**
   * What one echo service answered: a request that threw or was not ok, or the
   * `ip` and `origin` fields of its JSON body (`None` where a field is absent).
   */
  datatype EchoOutcome = EchoFailed | EchoAnswered(ip: Option<string>, origin: Option<string>)

  /** The fields of the geolocation service's JSON body ("" or 0 where absent). */
  datatype GeoFields = GeoFields(
    countryName: string, region: string, city: string,
    latitude: real, longitude: real, timezone: string, org: string, asn: string)

  /** What the geolocation service answered: a request that threw or was not ok, or a body. */
  datatype GeoOutcome = GeoFailed | GeoAnswered(fields: GeoFields)

  /** The echo services, tried in this order. */
  const EchoServices: seq<string> :=
    ["https://api.ipify.org?format=json", "https://ipapi.co/json/", "https://httpbin.org/ip"]

  /** `cacheTimeout`: five minutes in milliseconds. */
  const CacheTimeout: int := 5 * 60 * 1000

  const NoFlags: Security := Security(false, false, false, false)

  // ---------------------------------------------------------------------------
  // Validation
  // ---------------------------------------------------------------------------

  /** One octet of the IPv4 pattern: `25[0-5]|2[0-4][0-9]|[01]?[0-9][0-9]?`. */
  predicate IsOctetPattern(p: string) {
    || (|p| == 3 && p[0] == '2' && p[1] == '5' && '0' <= p[2] <= '5')
    || (|p| == 3 && p[0] == '2' && '0' <= p[1] <= '4' && IsDigit(p[2]))
    || (|p| == 1 && IsDigit(p[0]))
    || (|p| == 2 && IsDigit(p[0]) && IsDigit(p[1]))
    || (|p| == 3 && (p[0] == '0' || p[0] == '1') && IsDigit(p[1]) && IsDigit(p[2]))
  }

  /** The IPv4 pattern: four octets separated by dots, nothing before or after. */
  predicate IsIPv4Pattern(s: string) {
    var parts := Split(s, ".");
    |parts| == 4 && forall i :: 0 <= i < 4 ==> IsOctetPattern(parts[i])
  }

  /** One group of the IPv6 pattern: `[0-9a-fA-F]{1,4}`. */
  predicate IsHexGroup(p: string) {
    1 <= |p| <= 4 && forall i :: 0 <= i < |p| ==> IsHexDigit(p[i])
  }

  /** The IPv6 pattern: eight groups separated by colons, no `::` shorthand. */
  predicate IsIPv6Pattern(s: string) {
    var parts := Split(s, ":");
    |parts| == 8 && forall i :: 0 <= i < 8 ==> IsHexGroup(parts[i])
  }

  /** `validateIP`. */
  predicate ValidateIP(s: string) {
    IsIPv4Pattern(s) || IsIPv6Pattern(s)
  }

  /** `Number(part)` on a string of digits; anything else stands for NaN. */
  function JsNumber(p: string): Option<nat> {
    if AllDigits(p) then Some(DecimalValue(p)) else None
  }

  /** `isPrivateIP`: invalid strings are not private; four dotted parts are checked against the ranges. */
  function IsPrivateIP(ip: string): (r: bool)
    ensures r ==> IsIPv4Pattern(ip)
  {
    if !ValidateIP(ip) then false
    else
      var parts := Split(ip, ".");
      if |parts| == 4 then
        assert IsIPv4Pattern(ip) by {
          if !IsIPv4Pattern(ip) { IPv6HasOneDotPart(ip); }
        }
        var first := JsNumber(parts[0]);
        var second := JsNumber(parts[1]);
        var r := first == Some(10)
          || (first == Some(172) && second.Some? && 16 <= second.value <= 31)
          || (first == Some(192) && second == Some(168))
          || first == Some(127);
        r
      else false
  }

  /** `detectIPType`: any colon makes it IPv6, valid or not. */
  function DetectIPType(ip: string): IPType {
    if ':' in ip then IPv6 else IPv4
  }

  // ---------------------------------------------------------------------------
  // Lemmas about validation and classification
  // ---------------------------------------------------------------------------

  /** A character in neither the separator nor any part is not in the join. */
  lemma {:induction false} JoinAvoidsChar(parts: seq<string>, sep: string, c: char)
    requires |parts| >= 1
    requires c !in sep && forall i :: 0 <= i < |parts| ==> c !in parts[i]
    ensures c !in Join(parts, sep)
    decreases |parts|
  {
    if |parts| > 1 {
      JoinAvoidsChar(parts[1..], sep, c);
      assert Join(parts, sep) == parts[0] + sep + Join(parts[1..], sep);
    }
  }

  /** The pieces of a valid IPv6 address are hexadecimal, so none holds `c` unless `c` is a hex digit. */
  lemma HexGroupsAvoid(s: string, c: char)
    requires IsIPv6Pattern(s) && !IsHexDigit(c)
    ensures forall i :: 0 <= i < |Split(s, ":")| ==> c !in Split(s, ":")[i]
  {
    var parts := Split(s, ":");
    forall i | 0 <= i < |parts| ensures c !in parts[i] {
      assert IsHexGroup(parts[i]);
      forall j | 0 <= j < |parts[i]| ensures parts[i][j] != c {
        assert IsHexDigit(parts[i][j]);
      }
    }
  }

  /** The pieces of a valid IPv4 address are decimal, so none holds `c` unless `c` is a digit. */
  lemma OctetsAvoid(parts: seq<string>, c: char)
    requires |parts| == 4 && forall i :: 0 <= i < 4 ==> IsOctetPattern(parts[i])
    requires !IsDigit(c)
    ensures forall i :: 0 <= i < |parts| ==> c !in parts[i]
  {
    forall i | 0 <= i < |parts| ensures c !in parts[i] {
      OctetPatternIsByte(parts[i]);
      forall j | 0 <= j < |parts[i]| ensures parts[i][j] != c {
        assert IsDigit(parts[i][j]);
      }
    }
  }

  /** A valid IPv6 address holds no dot, so splitting it on '.' leaves it whole. */
  lemma IPv6HasOneDotPart(s: string)
    requires IsIPv6Pattern(s)
    ensures Split(s, ".") == [s]
    ensures !IsIPv4Pattern(s)
  {
    JoinSplit(s, ":");
    HexGroupsAvoid(s, '.');
    JoinAvoidsChar(Split(s, ":"), ":", '.');
    SplitJoinChar([s], '.');
  }

  /** `detectIPType` agrees with the pattern that validated the address. */
  lemma {:induction false} DetectAgreesWithPattern(s: string)
    ensures IsIPv6Pattern(s) ==> DetectIPType(s) == IPv6
    ensures IsIPv4Pattern(s) ==> DetectIPType(s) == IPv4
  {
    if IsIPv6Pattern(s) {
      var parts := Split(s, ":");
      JoinSplit(s, ":");
      assert s == parts[0] + ":" + Join(parts[1..], ":");
      assert s[|parts[0]|] == ':';
    }
    if IsIPv4Pattern(s) {
      var parts := Split(s, ".");
      JoinSplit(s, ".");
      OctetsAvoid(parts, ':');
      JoinAvoidsChar(parts, ".", ':');
    }
  }

  lemma DecimalValueOfThree(p: string)
    requires |p| == 3 && AllDigits(p)
    ensures DecimalValue(p) == 100 * DigitValue(p[0]) + 10 * DigitValue(p[1]) + DigitValue(p[2])
  {
    var p2, p1 := p[..2], p[..1];
    assert p2[..1] == p1;
    assert p1[..0] == [];
    assert DecimalValue(p1) == DigitValue(p[0]);
    assert DecimalValue(p2) == DecimalValue(p1) * 10 + DigitValue(p[1]);
    assert DecimalValue(p) == DecimalValue(p2) * 10 + DigitValue(p[2]);
  }

  lemma DecimalValueOfTwo(p: string)
    requires |p| == 2 && AllDigits(p)
    ensures DecimalValue(p) == 10 * DigitValue(p[0]) + DigitValue(p[1])
  {
    var p1 := p[..1];
    assert p1[..0] == [];
    assert DecimalValue(p1) == DigitValue(p[0]);
    assert DecimalValue(p) == DecimalValue(p1) * 10 + DigitValue(p[1]);
  }

  lemma DecimalValueOfOne(p: string)
    requires |p| == 1 && AllDigits(p)
    ensures DecimalValue(p) == DigitValue(p[0])
  {
    assert p[..0] == [];
  }

  /** The octet pattern accepts exactly the 1-3 digit numerals of 0..255, leading zeros allowed. */
  lemma OctetPatternIsByte(p: string)
    ensures IsOctetPattern(p) <==> 1 <= |p| <= 3 && AllDigits(p) && DecimalValue(p) <= 255
  {
    if |p| == 3 && AllDigits(p) {
      DecimalValueOfThree(p);
    } else if |p| == 2 && AllDigits(p) {
      DecimalValueOfTwo(p);
    } else if |p| == 1 && AllDigits(p) {
      DecimalValueOfOne(p);
    }
  }

  /** The IPv4 pattern is the regular shape `O.O.O.O` with each `O` an octet. */
  lemma IPv4PatternShape(s: string)
    ensures IsIPv4Pattern(s) <==>
      exists parts :: |parts| == 4 && (forall i :: 0 <= i < 4 ==> IsOctetPattern(parts[i]))
                      && s == Join(parts, ".")
  {
    if IsIPv4Pattern(s) {
      JoinSplit(s, ".");
      var parts := Split(s, ".");
      assert |parts| == 4 && (forall i :: 0 <= i < 4 ==> IsOctetPattern(parts[i])) && s == Join(parts, ".");
    }
    if exists parts :: |parts| == 4 && (forall i :: 0 <= i < 4 ==> IsOctetPattern(parts[i]))
                       && s == Join(parts, ".") {
      var parts :| |parts| == 4 && (forall i :: 0 <= i < 4 ==> IsOctetPattern(parts[i]))
                   && s == Join(parts, ".");
      OctetsAvoid(parts, '.');
      SplitJoinChar(parts, '.');
    }
  }

  lemma JoinStartsWithFirst(parts: seq<string>, c: char)
    requires |parts| >= 1 && parts[0] != []
    ensures Join(parts, [c]) != [] && Join(parts, [c])[0] == parts[0][0]
  {
  }

  /** Parts that are non-empty and free of `c` join into a string with no two adjacent `c`s. */
  lemma {:induction false} JoinHasNoDoubleSeparator(parts: seq<string>, c: char, k: nat)
    requires |parts| >= 1
    requires forall i :: 0 <= i < |parts| ==> parts[i] != [] && c !in parts[i]
    requires k + 1 < |Join(parts, [c])|
    ensures Join(parts, [c])[k] != c || Join(parts, [c])[k + 1] != c
    decreases |parts|
  {
    var s := Join(parts, [c]);
    var head := parts[0];
    if |parts| == 1 {
      assert s[k] in head;
    } else {
      var rest := Join(parts[1..], [c]);
      assert s == head + [c] + rest;
      if k < |head| {
        assert s[k] == head[k];
        assert head[k] in head;
      } else if k == |head| {
        JoinStartsWithFirst(parts[1..], c);
        assert s[k + 1] == rest[0] == parts[1][0];
        assert parts[1][0] in parts[1];
      } else {
        assert s[k] == rest[k - |head| - 1] && s[k + 1] == rest[k - |head|];
        JoinHasNoDoubleSeparator(parts[1..], c, k - |head| - 1);
      }
    }
  }

  /** A valid IPv6 address never holds the `::` shorthand. */
  lemma IPv6PatternHasNoShorthand(s: string)
    requires IsIPv6Pattern(s)
    ensures !Contains(s, "::")
  {
    var parts := Split(s, ":");
    JoinSplit(s, ":");
    HexGroupsAvoid(s, ':');
    forall i | 0 <= i < |parts| ensures parts[i] != [] {
      assert IsHexGroup(parts[i]);
    }
    assert ":" == [':'];
    forall k | 0 <= k <= |s| - 2 ensures !OccursAt(s, "::", k) {
      JoinHasNoDoubleSeparator(parts, ':', k);
      assert s[k..k + 2][0] == s[k] && s[k..k + 2][1] == s[k + 1];
    }
  }

  /** The address as a 32-bit number, from its four octets. */
  function Quad(a: nat, b: nat, c: nat, d: nat): nat {
    ((a * 256 + b) * 256 + c) * 256 + d
  }

  function IPv4Value(s: string): nat
    requires IsIPv4Pattern(s)
  {
    var parts := Split(s, ".");
    OctetPatternIsByte(parts[0]);
    OctetPatternIsByte(parts[1]);
    OctetPatternIsByte(parts[2]);
    OctetPatternIsByte(parts[3]);
    Quad(DecimalValue(parts[0]), DecimalValue(parts[1]), DecimalValue(parts[2]), DecimalValue(parts[3]))
  }

  /** An inclusive range of 32-bit addresses. */
  datatype AddressBlock = AddressBlock(first: nat, last: nat)

  /** 10.0.0.0/8, 172.16.0.0/12, 192.168.0.0/16 and 127.0.0.0/8 as address ranges. */
  const PrivateBlocks: seq<AddressBlock> := [
    AddressBlock(Quad(10, 0, 0, 0), Quad(10, 255, 255, 255)),
    AddressBlock(Quad(172, 16, 0, 0), Quad(172, 31, 255, 255)),
    AddressBlock(Quad(192, 168, 0, 0), Quad(192, 168, 255, 255)),
    AddressBlock(Quad(127, 0, 0, 0), Quad(127, 255, 255, 255))
  ]

  predicate InBlock(v: nat, b: AddressBlock) { b.first <= v <= b.last }

  lemma QuadBlocks(a: nat, b: nat, c: nat, d: nat)
    requires a <= 255 && b <= 255 && c <= 255 && d <= 255
    ensures InBlock(Quad(a, b, c, d), PrivateBlocks[0]) <==> a == 10
    ensures InBlock(Quad(a, b, c, d), PrivateBlocks[1]) <==> a == 172 && 16 <= b <= 31
    ensures InBlock(Quad(a, b, c, d), PrivateBlocks[2]) <==> a == 192 && b == 168
    ensures InBlock(Quad(a, b, c, d), PrivateBlocks[3]) <==> a == 127
  {
    var low := c * 256 + d;
    assert 0 <= low < 65536;
    assert Quad(a, b, c, d) == a * 16777216 + b * 65536 + low;
  }

  /** On a valid IPv4 address, `isPrivateIP` is membership in one of the four private blocks. */
  lemma PrivateMeansPrivateBlock(s: string)
    requires IsIPv4Pattern(s)
    ensures IsPrivateIP(s) <==> exists i :: 0 <= i < |PrivateBlocks| && InBlock(IPv4Value(s), PrivateBlocks[i])
  {
    var parts := Split(s, ".");
    OctetPatternIsByte(parts[0]);
    OctetPatternIsByte(parts[1]);
    OctetPatternIsByte(parts[2]);
    OctetPatternIsByte(parts[3]);
    var a, b := DecimalValue(parts[0]), DecimalValue(parts[1]);
    QuadBlocks(a, b, DecimalValue(parts[2]), DecimalValue(parts[3]));
    assert JsNumber(parts[0]) == Some(a) && JsNumber(parts[1]) == Some(b);
  }

  /** Invalid strings and valid IPv6 addresses are never private. */
  lemma NotPrivateUnlessIPv4(s: string)
    ensures !ValidateIP(s) ==> !IsPrivateIP(s)
    ensures IsIPv6Pattern(s) ==> !IsPrivateIP(s)
  {
    if IsIPv6Pattern(s) {
      IPv6HasOneDotPart(s);
    }
  }

  // ---------------------------------------------------------------------------
  // Records
  // ---------------------------------------------------------------------------

  /** `value || 'Unknown'`. */
  function OrUnknown(s: string): string { if s == "" then "Unknown" else s }

  /** A record the tool could build for `target`: its own address and type, no security flags. */
  predicate DescribesAddress(info: IPInfo, target: string) {
    info.ip == target && info.ipType == DetectIPType(target) && info.security == NoFlags
  }

  /** The record built from a geolocation answer. */
  function InfoFromGeo(target: string, f: GeoFields): (info: IPInfo)
    ensures DescribesAddress(info, target)
    ensures info.isp == info.organization
  {
    IPInfo(target, DetectIPType(target),
      Location(OrUnknown(f.countryName), OrUnknown(f.region), OrUnknown(f.city),
               f.latitude, f.longitude, OrUnknown(f.timezone)),
      OrUnknown(f.org), OrUnknown(f.org), OrUnknown(f.asn), NoFlags)
  }

  /** The record returned when the geolocation request fails. */
  function FallbackInfo(target: string): (info: IPInfo)
    ensures DescribesAddress(info, target)
  {
    IPInfo(target, DetectIPType(target),
      Location("Unknown", "Unknown", "Unknown", 0.0, 0.0, "Unknown"),
      "Unknown", "Unknown", "Unknown", NoFlags)
  }

  // ---------------------------------------------------------------------------
  // The public address
  // ---------------------------------------------------------------------------

  /** `data.ip || data.origin` of an answering service; `None` is `undefined`. */
  function EchoAddress(o: EchoOutcome): (address: Option<string>)
    requires o.EchoAnswered?
    ensures address.None? <==> (o.ip.None? || o.ip == Some("")) && o.origin.None?
    ensures address.Some? ==> address == o.ip || address == o.origin
  {
    if o.ip.Some? && o.ip.value != "" then o.ip else o.origin
  }

  /**
   * The address of the first service that answered, or "Unknown" when none did.
   * A first answer without either field gives `None`, the `undefined` the source returns.
   */
  function PublicIP(outcomes: seq<EchoOutcome>): (ip: Option<string>)
    ensures (forall i :: 0 <= i < |outcomes| ==> outcomes[i].EchoFailed?) ==> ip == Some("Unknown")
    ensures forall k :: 0 <= k < |outcomes| && outcomes[k].EchoAnswered?
                        && (forall i :: 0 <= i < k ==> outcomes[i].EchoFailed?)
                        ==> ip == EchoAddress(outcomes[k])
  {
    if outcomes == [] then Some("Unknown")
    else if outcomes[0].EchoAnswered? then EchoAddress(outcomes[0])
    else
      var ip := PublicIP(outcomes[1..]);
      assert forall k :: 1 <= k < |outcomes| ==> outcomes[k] == outcomes[1..][k - 1];
      ip
  }

  /** `getPublicIP`: ask each service in order and return from the first one that answers. */
  method GetPublicIP(outcomes: seq<EchoOutcome>) returns (ip: Option<string>)
    requires |outcomes| == |EchoServices|
    ensures ip == PublicIP(outcomes)
  {
    var i := 0;
    while i < |EchoServices|
      invariant 0 <= i <= |EchoServices|
      invariant PublicIP(outcomes) == PublicIP(outcomes[i..])
    {
      assert outcomes[i..][1..] == outcomes[i + 1..];
      if outcomes[i].EchoAnswered? {
        return EchoAddress(outcomes[i]);
      }
      i := i + 1;
    }
    ip := Some("Unknown");
  }

  /** `ip || await getPublicIP()`: the address a lookup is about; `None` is `undefined`. */
  function Target(ip: string, outcomes: seq<EchoOutcome>): Option<string> {
    if ip != "" then Some(ip) else PublicIP(outcomes)
  }

  // ---------------------------------------------------------------------------
  // The cached lookup
  // ---------------------------------------------------------------------------

  /**
   * The message of the `TypeError` that `detectIPType(undefined)` throws in V8
   * when a lookup's target is `undefined`.
   */
  const UndefinedTargetError := "Cannot read properties of undefined (reading 'includes')"

  /** Every cached record describes the address it is filed under. */
  predicate CacheValid(cache: map<string, CacheEntry>) {
    forall k :: k in cache ==> DescribesAddress(cache[k].data, k)
  }

  /** An entry younger than the time to live, strictly. */
  predicate IsFresh(cache: map<string, CacheEntry>, target: string, now: int) {
    target in cache && now - cache[target].timestamp < CacheTimeout
  }

  /**
   * The result of one lookup: the record or the message of the error the promise
   * rejects with, the cache afterwards, and whether the service was asked.
   */
  datatype Lookup = Lookup(result: Result<IPInfo, string>, cache: map<string, CacheEntry>, geoRequested: bool)

  /**
   * What `getIPInfo` does to the cache and returns, for a given service answer.
   * The clock is read twice: `now` for the freshness test, `storedAt` for the
   * timestamp of a new entry, taken after the request.
   *
   * An `undefined` target is never a key, so the service is asked; then building
   * the record and building the fallback both call `detectIPType(undefined)`,
   * and the second `TypeError` escapes.
   */
  function LookupInfo(cache: map<string, CacheEntry>, target: Option<string>, geo: GeoOutcome,
                      now: int, storedAt: int): Lookup
  {
    match target
    case None => Lookup(Err(UndefinedTargetError), cache, true)
    case Some(t) =>
      if IsFresh(cache, t, now) then Lookup(Ok(cache[t].data), cache, false)
      else
        match geo
        case GeoAnswered(f) =>
          var info := InfoFromGeo(t, f);
          Lookup(Ok(info), cache[t := CacheEntry(info, storedAt)], true)
        case GeoFailed => Lookup(Ok(FallbackInfo(t)), cache, true)
  }

  /** A fresh entry answers the lookup, and the service is not asked. */
  lemma CacheHit(cache: map<string, CacheEntry>, target: string, geo: GeoOutcome, now: int, storedAt: int)
    requires IsFresh(cache, target, now)
    ensures LookupInfo(cache, Some(target), geo, now, storedAt) == Lookup(Ok(cache[target].data), cache, false)
  {
  }

  /**
   * A missing or stale entry (five minutes old counts as stale) makes the lookup
   * ask the service; an answer is stored at the second clock reading.
   */
  lemma CacheMiss(cache: map<string, CacheEntry>, target: string, geo: GeoOutcome, now: int, storedAt: int)
    requires target !in cache || now - cache[target].timestamp >= CacheTimeout
    ensures LookupInfo(cache, Some(target), geo, now, storedAt).geoRequested
    ensures geo.GeoAnswered? ==>
      LookupInfo(cache, Some(target), geo, now, storedAt)
      == Lookup(Ok(InfoFromGeo(target, geo.fields)),
                cache[target := CacheEntry(InfoFromGeo(target, geo.fields), storedAt)], true)
    ensures geo.GeoFailed? ==> LookupInfo(cache, Some(target), geo, now, storedAt)
                               == Lookup(Ok(FallbackInfo(target)), cache, true)
  {
  }

  /** An `undefined` target asks the service, rejects with the `TypeError` and leaves the cache alone. */
  lemma UndefinedTargetRejects(cache: map<string, CacheEntry>, geo: GeoOutcome, now: int, storedAt: int)
    ensures LookupInfo(cache, None, geo, now, storedAt) == Lookup(Err(UndefinedTargetError), cache, true)
  {
  }

  /** Every lookup of an address returns a record that describes it and keeps the cache valid. */
  lemma LookupDescribesTarget(cache: map<string, CacheEntry>, target: string, geo: GeoOutcome,
                              now: int, storedAt: int)
    requires CacheValid(cache)
    ensures LookupInfo(cache, Some(target), geo, now, storedAt).result.Ok?
    ensures DescribesAddress(LookupInfo(cache, Some(target), geo, now, storedAt).result.value, target)
    ensures CacheValid(LookupInfo(cache, Some(target), geo, now, storedAt).cache)
  {
  }

  /**
   * After a successful lookup whose entry is stored at `s1`, a lookup less than
   * five minutes after `s1` gives the same record without a second request, and
   * one five minutes or more after `s1` asks again.
   */
  lemma RepeatedLookups(cache: map<string, CacheEntry>, target: string,
                        geo1: GeoOutcome, geo2: GeoOutcome, geo3: GeoOutcome,
                        t1: int, s1: int, t2: int, s2: int, t3: int, s3: int)
    requires geo1.GeoAnswered? && !IsFresh(cache, target, t1)
    requires t2 - s1 < CacheTimeout && t3 - s1 >= CacheTimeout
    ensures var first := LookupInfo(cache, Some(target), geo1, t1, s1);
            var second := LookupInfo(first.cache, Some(target), geo2, t2, s2);
            && first.cache[target].timestamp == s1
            && second.result == first.result && !second.geoRequested && second.cache == first.cache
            && LookupInfo(second.cache, Some(target), geo3, t3, s3).geoRequested
  {
  }

  /**
   * The process-wide state of `IPTool`: the cache, keyed by address.
   * One object stands for the static members of the source class.
   */
  class IPTool {
    var cache: map<string, CacheEntry>

    ghost predicate Valid()
      reads this
    {
      CacheValid(cache)
    }

    constructor()
      ensures Valid() && cache == map[]
    {
      cache := map[];
    }

    /**
     * `getIPInfo(ip)`: an empty `ip` means the public address. A fresh cache
     * entry is returned as it is; otherwise the geolocation answer is turned
     * into a record and cached at the second clock reading, or the fallback
     * record is returned uncached. An `undefined` public address rejects.
     */
    method GetIPInfo(ip: string, echo: seq<EchoOutcome>, geo: GeoOutcome, now: int, storedAt: int)
      returns (result: Result<IPInfo, string>, geoRequested: bool)
      requires Valid() && |echo| == |EchoServices|
      modifies this
      ensures Valid()
      ensures Lookup(result, cache, geoRequested) == LookupInfo(old(cache), Target(ip, echo), geo, now, storedAt)
      ensures Target(ip, echo).Some? ==> result.Ok? && DescribesAddress(result.value, Target(ip, echo).value)
      ensures Target(ip, echo).None? ==> result == Err(UndefinedTargetError) && cache == old(cache)
    {
      var target := Some(ip);
      if ip == "" {
        target := GetPublicIP(echo);
      }
      if target.None? {
        return Err(UndefinedTargetError), true;
      }
      var t := target.value;
      if t in cache && now - cache[t].timestamp < CacheTimeout {
        return Ok(cache[t].data), false;
      }
      geoRequested := true;
      match geo {
        case GeoAnswered(f) =>
          var info := InfoFromGeo(t, f);
          cache := cache[t := CacheEntry(info, storedAt)];
          result := Ok(info);
        case GeoFailed =>
          result := Ok(FallbackInfo(t));
      }
    }

    /** `clearCache`: forget every entry, so the next lookup asks the service. */
    method ClearCache()
      modifies this
      ensures Valid() && cache == map[]
      ensures forall target, geo, now, storedAt :: LookupInfo(cache, target, geo, now, storedAt).geoRequested
    {
      cache := map[];
    }
  }

  // ---------------------------------------------------------------------------
  // Examples
  // ---------------------------------------------------------------------------

  lemma ValidExample()
    ensures ValidateIP("192.168.1.1")
  {
    var parts := ["192", "168", "1", "1"];
    assert IsOctetPattern(parts[0]) && IsOctetPattern(parts[1]) && IsOctetPattern(parts[2]) && IsOctetPattern(parts[3]);
    assert Join(parts, ".") == "192.168.1.1";
    DottedQuad("192.168.1.1", parts);
  }

  lemma OutOfRangeExample()
    ensures !ValidateIP("999.1.1.1")
  {
    var parts := ["999", "1", "1", "1"];
    assert !IsOctetPattern(parts[0]);
    assert Join(parts, ".") == "999.1.1.1";
    NotDottedQuad("999.1.1.1", parts);
  }

  lemma ThreeOctetExample()
    ensures !ValidateIP("192.168.1")
  {
    var parts := ["192", "168", "1"];
    assert Join(parts, ".") == "192.168.1";
    NotDottedQuad("192.168.1", parts);
  }

  /**
   * Parts without dots or colons, joined by dots, fail validation unless there are
   * four of them and each is an octet.
   */
  lemma NotDottedQuad(s: string, parts: seq<string>)
    requires |parts| >= 1 && forall k :: 0 <= k < |parts| ==> '.' !in parts[k] && ':' !in parts[k]
    requires Join(parts, ".") == s
    requires |parts| != 4 || exists i :: 0 <= i < 4 && !IsOctetPattern(parts[i])
    ensures !ValidateIP(s)
  {
    SplitJoinChar(parts, '.');
    JoinAvoidsChar(parts, ".", ':');
    SplitJoinChar([s], ':');
  }

  /** Four octets joined by dots make a valid IPv4 address that splits back into them. */
  lemma DottedQuad(s: string, parts: seq<string>)
    requires |parts| == 4 && forall i :: 0 <= i < 4 ==> IsOctetPattern(parts[i])
    requires Join(parts, ".") == s
    ensures Split(s, ".") == parts && IsIPv4Pattern(s) && ValidateIP(s)
  {
    OctetsAvoid(parts, '.');
    SplitJoinChar(parts, '.');
  }

  lemma PrivateExample()
    ensures IsPrivateIP("10.0.0.5")
  {
    PrivateParts();
    PrivateNumbers();
    PrivateByFirstParts("10.0.0.5", 10, 0);
  }

  lemma PrivateParts()
    ensures Split("10.0.0.5", ".") == ["10", "0", "0", "5"] && ValidateIP("10.0.0.5")
  {
    var ten := ["10", "0", "0", "5"];
    assert IsOctetPattern(ten[0]) && IsOctetPattern(ten[1]) && IsOctetPattern(ten[2]) && IsOctetPattern(ten[3]);
    assert Join(ten, ".") == "10.0.0.5";
    DottedQuad("10.0.0.5", ten);
  }

  lemma PrivateNumbers()
    ensures JsNumber("10") == Some(10) && JsNumber("0") == Some(0)
  {
    DecimalValueOfTwo("10");
    DecimalValueOfOne("0");
  }

  lemma PublicExample()
    ensures !IsPrivateIP("8.8.8.8")
  {
    PublicParts();
    PublicNumbers();
    PrivateByFirstParts("8.8.8.8", 8, 8);
  }

  lemma PublicParts()
    ensures Split("8.8.8.8", ".") == ["8", "8", "8", "8"] && ValidateIP("8.8.8.8")
  {
    var eight := ["8", "8", "8", "8"];
    assert IsOctetPattern(eight[0]);
    assert Join(eight, ".") == "8.8.8.8";
    DottedQuad("8.8.8.8", eight);
  }

  lemma PublicNumbers()
    ensures JsNumber("8") == Some(8)
  {
    DecimalValueOfOne("8");
  }

  lemma OutsideBlockExample()
    ensures !IsPrivateIP("172.32.0.1")
  {
    OutsideBlockParts();
    OutsideBlockNumbers();
    PrivateByFirstParts("172.32.0.1", 172, 32);
  }

  lemma OutsideBlockNumbers()
    ensures JsNumber("172") == Some(172) && JsNumber("32") == Some(32)
  {
    DecimalValueOfThree("172");
    DecimalValueOfTwo("32");
  }

  /** On a valid address of four parts, `isPrivateIP` reads only the first two numbers. */
  lemma PrivateByFirstParts(s: string, a: nat, b: nat)
    requires ValidateIP(s) && |Split(s, ".")| == 4
    requires JsNumber(Split(s, ".")[0]) == Some(a) && JsNumber(Split(s, ".")[1]) == Some(b)
    ensures IsPrivateIP(s) <==> a == 10 || (a == 172 && 16 <= b <= 31) || (a == 192 && b == 168) || a == 127
  {
  }

  lemma OutsideBlockParts()
    ensures Split("172.32.0.1", ".") == ["172", "32", "0", "1"] && ValidateIP("172.32.0.1")
  {
    var other := ["172", "32", "0", "1"];
    assert IsOctetPattern(other[0]) && IsOctetPattern(other[1]) && IsOctetPattern(other[2]) && IsOctetPattern(other[3]);
    assert Join(other, ".") == "172.32.0.1";
    DottedQuad("172.32.0.1", other);
  }
}
