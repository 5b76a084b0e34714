/**
 * The placeholder IP-to-location classifier of the location service
 * (`getLocationByIp`): a missing, local or private address maps to a fixed
 * "Localhost" record, every other address to one of three fixed cities chosen
 * by its last code unit modulo 3.
 */
module LocationService {
  import opened Wrappers
  import opened JsText

  datatype Location = Location(city: JsString, region: JsString, country: JsString)

  const LocalRecord: Location := Location(
    [76, 111, 99, 97, 108, 104, 111, 115, 116],  // "Localhost"
    [76, 111, 99, 97, 108],                      // "Local"
    [76, 111, 99, 97, 108])                      // "Local"
  const NewYork: Location := Location(
    [78, 101, 119, 32, 89, 111, 114, 107],       // "New York"
    [78, 89],                                    // "NY"
    [85, 83])                                    // "US"
  const London: Location := Location(
    [76, 111, 110, 100, 111, 110],               // "London"
    [69, 110, 103, 108, 97, 110, 100],           // "England"
    [71, 66])                                    // "GB"
  const Tokyo: Location := Location(
    [84, 111, 107, 121, 111],                    // "Tokyo"
    [84, 111, 107, 121, 111],                    // "Tokyo"
    [74, 80])                                    // "JP"

  /** The four records the classifier can return. */
  predicate IsFixedRecord(l: Location) {
    l == LocalRecord || l == NewYork || l == London || l == Tokyo
  }

  /** `(ip || '').trim()`: a missing address and an empty one both become the empty string. */
  function Normalize(ip: Option<JsString>): (n: JsString)
    ensures ip == None ==> n == []
    ensures n == [] || (!IsWhitespace(n[0]) && !IsWhitespace(n[|n| - 1]))
  {
    Trim(ip.GetOr([]))
  }

  const Loopback4: JsString := [49, 50, 55, 46, 48, 46, 48, 46, 49]  // "127.0.0.1"
  const Loopback6: JsString := [58, 58, 49]                          // "::1"

  /** The raw prefixes that mark an address as local, in the order the source checks them. */
  const LocalPrefixes: seq<JsString> := [
    [58, 58, 102, 102, 102, 102, 58, 49, 50, 55, 46],  // "::ffff:127."
    [49, 48, 46],                                      // "10."
    [49, 57, 50, 46, 49, 54, 56, 46],                  // "192.168."
    [49, 55, 50, 46, 49, 54, 46],                      // "172.16."
    [49, 55, 50, 46, 49, 55, 46],                      // "172.17."
    [49, 55, 50, 46, 49, 56, 46],                      // "172.18."
    [49, 55, 50, 46, 49, 57, 46],                      // "172.19."
    [49, 55, 50, 46, 50],                              // "172.2"
    [49, 55, 50, 46, 51]                               // "172.3"
  ]

  predicate HasLocalPrefix(n: JsString) {
    exists k | 0 <= k < |LocalPrefixes| :: StartsWith(n, LocalPrefixes[k])
  }

  /** `isLocal`: one of the two loopback spellings, or one of the raw local prefixes. */
  predicate IsLocal(n: JsString)
    ensures IsLocal(n) ==> n != []
  {
    n == Loopback4 || n == Loopback6 || HasLocalPrefix(n)
  }

  /** `normalized[normalized.length - 1]`: undefined on the empty string. */
  function LastChar(n: JsString): (r: Option<CodeUnit>)
    ensures r.Some? <==> n != []
    ensures n != [] ==> r.value == n[|n| - 1]
  {
    if n == [] then None else Some(n[|n| - 1])
  }

  /** The record for bucket 0, bucket 1, and any other bucket. */
  function BucketRecord(bucket: int): (r: Location)
    ensures IsFixedRecord(r) && r != LocalRecord
    ensures r == NewYork <==> bucket == 0
    ensures r == London <==> bucket == 1
  {
    OtherCitiesAreNotLocal();
    if bucket == 0 then NewYork else if bucket == 1 then London else Tokyo
  }

  /** The classification applied to the trimmed address. */
  function Classify(normalized: JsString): (r: Location)
    ensures IsFixedRecord(r)
  {
    if IsLocal(normalized) || normalized == [] then LocalRecord
    else
      // `lastChar ? lastChar.charCodeAt(0) % 3 : 0`: `lastChar` is always present here
      var bucket := match LastChar(normalized)
                    case Some(c) => c % 3
                    case None => assert false; 0;
      BucketRecord(bucket)
  }

  /** `getLocationByIp`: total, and always one of the four fixed records. */
  function GetLocationByIp(ip: Option<JsString>): (r: Location)
    ensures IsFixedRecord(r)
  {
    Classify(Normalize(ip))
  }

  lemma ClassifyLocal(n: JsString)
    requires IsLocal(n) || n == []
    ensures Classify(n) == LocalRecord
  {
  }

  lemma ClassifyNonLocal(n: JsString)
    requires n != [] && !IsLocal(n)
    ensures Classify(n) == BucketRecord(n[|n| - 1] % 3)
  {
  }

  /** A missing, empty or all-whitespace address is local. */
  lemma BlankIsLocal(ip: Option<JsString>)
    requires ip == None || AllWhitespace(ip.value)
    ensures GetLocationByIp(ip) == LocalRecord
  {
    TrimEmptyIff(ip.GetOr([]));
    ClassifyLocal(Normalize(ip));
  }

  /** After trimming, exactly `127.0.0.1` or `::1` is local. */
  lemma LoopbackIsLocal(ip: Option<JsString>)
    requires Normalize(ip) == Loopback4 || Normalize(ip) == Loopback6
    ensures GetLocationByIp(ip) == LocalRecord
  {
    ClassifyLocal(Normalize(ip));
  }

  /** Any trimmed address beginning with one of the raw local prefixes is local. */
  lemma PrivatePrefixIsLocal(ip: Option<JsString>, k: nat)
    requires k < |LocalPrefixes| && StartsWith(Normalize(ip), LocalPrefixes[k])
    ensures GetLocationByIp(ip) == LocalRecord
  {
    ClassifyLocal(Normalize(ip));
  }

  lemma OtherCitiesAreNotLocal()
    ensures NewYork != LocalRecord && London != LocalRecord && Tokyo != LocalRecord
    ensures NewYork != London && London != Tokyo && NewYork != Tokyo
  {
    assert |NewYork.city| != |London.city| && |London.city| != |Tokyo.city| && |NewYork.city| != |Tokyo.city|;
    assert NewYork.city[0] != LocalRecord.city[0];
    assert |London.city| != |LocalRecord.city|;
    assert |Tokyo.city| != |LocalRecord.city|;
  }

  /** The local record comes back exactly for the empty and the local addresses. */
  lemma LocalIff(ip: Option<JsString>)
    ensures GetLocationByIp(ip) == LocalRecord <==> (Normalize(ip) == [] || IsLocal(Normalize(ip)))
  {
    var n := Normalize(ip);
    if n == [] || IsLocal(n) {
      ClassifyLocal(n);
    } else {
      ClassifyNonLocal(n);
      OtherCitiesAreNotLocal();
    }
  }

  /** Any other address is classified by its last code unit modulo 3. */
  lemma NonLocalBucket(ip: Option<JsString>)
    requires Normalize(ip) != [] && !IsLocal(Normalize(ip))
    ensures var n := Normalize(ip); var c := n[|n| - 1];
      GetLocationByIp(ip) == (if c % 3 == 0 then NewYork else if c % 3 == 1 then London else Tokyo)
  {
    ClassifyNonLocal(Normalize(ip));
  }

  /** Two non-local addresses ending in the same code unit get the same record. */
  lemma SameLastCharSameLocation(ip1: Option<JsString>, ip2: Option<JsString>)
    requires Normalize(ip1) != [] && !IsLocal(Normalize(ip1))
    requires Normalize(ip2) != [] && !IsLocal(Normalize(ip2))
    requires Normalize(ip1)[|Normalize(ip1)| - 1] == Normalize(ip2)[|Normalize(ip2)| - 1]
    ensures GetLocationByIp(ip1) == GetLocationByIp(ip2)
  {
    ClassifyNonLocal(Normalize(ip1));
    ClassifyNonLocal(Normalize(ip2));
  }

  /** The result depends only on the trimmed address: surrounding whitespace never matters. */
  lemma WhitespaceIrrelevant(w1: JsString, s: JsString, w2: JsString)
    requires AllWhitespace(w1) && AllWhitespace(w2)
    ensures GetLocationByIp(Some(w1 + s + w2)) == GetLocationByIp(Some(s))
  {
    TrimIgnoresPadding(w1, s, w2);
  }

  /** Classifying the already trimmed address gives the same record. */
  lemma TrimmedInputSameLocation(s: JsString)
    ensures GetLocationByIp(Some(Trim(s))) == GetLocationByIp(Some(s))
  {
    TrimIdempotent(s);
  }

  /** `172.2` and `172.3` are raw prefixes, so addresses outside 172.16.0.0/12 count as local too. */
  lemma WidePrefixExamples()
    ensures GetLocationByIp(Some([49, 55, 50, 46, 50, 48, 48, 46, 48, 46, 49])) == LocalRecord  // "172.200.0.1"
    ensures GetLocationByIp(Some([49, 55, 50, 46, 51, 46, 52, 46, 53])) == LocalRecord          // "172.3.4.5"
    ensures GetLocationByIp(Some([0x20] + Loopback4 + [0x0A])) == LocalRecord                   // " 127.0.0.1\n"
  {
    var a: JsString := [49, 55, 50, 46, 50, 48, 48, 46, 48, 46, 49];
    var b: JsString := [49, 55, 50, 46, 51, 46, 52, 46, 53];
    TrimUnpadded(a);
    TrimUnpadded(b);
    TrimUnpadded(Loopback4);
    PrivatePrefixIsLocal(Some(a), 7);
    PrivatePrefixIsLocal(Some(b), 8);
    WhitespaceIrrelevant([0x20], Loopback4, [0x0A]);
    LoopbackIsLocal(Some(Loopback4));
  }

  /** A public address whose last code unit, '8' (56), falls in bucket 2. */
  lemma TokyoExample()
    ensures GetLocationByIp(Some([56, 46, 56, 46, 56, 46, 56])) == Tokyo  // "8.8.8.8"
  {
    var a: JsString := [56, 46, 56, 46, 56, 46, 56];
    TrimUnpadded(a);
    assert !HasLocalPrefix(a) by { assert a[0] == 56; }
    ClassifyNonLocal(a);
  }

  /** A public address whose last code unit, '1' (49), falls in bucket 1. */
  lemma LondonExample()
    ensures GetLocationByIp(Some([49, 46, 49, 46, 49, 46, 49])) == London  // "1.1.1.1"
  {
    var a: JsString := [49, 46, 49, 46, 49, 46, 49];
    TrimUnpadded(a);
    assert !HasLocalPrefix(a) by { assert a[1] == 46; }
    ClassifyNonLocal(a);
  }

  /** 172.15.x.x is outside every raw prefix; its last code unit, '3' (51), falls in bucket 0. */
  lemma NewYorkExample()
    ensures GetLocationByIp(Some([49, 55, 50, 46, 49, 53, 46, 48, 46, 51])) == NewYork  // "172.15.0.3"
  {
    var a: JsString := [49, 55, 50, 46, 49, 53, 46, 48, 46, 51];
    TrimUnpadded(a);
    forall k | 0 <= k < |LocalPrefixes| ensures !StartsWith(a, LocalPrefixes[k]) {
      var p := LocalPrefixes[k];
      if k <= 2 {
        assert p[0] != a[0] || p[1] != a[1];
      } else if k <= 6 {
        assert p[5] != a[5];
      } else {
        assert p[4] != a[4];
      }
    }
    ClassifyNonLocal(a);
  }
}
