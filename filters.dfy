/**
 * Stream parameters and `StreamConfig` of the AirSafe 2 stream client
 * (airsafe-v2-targets-stream-examples/serverless/aws-lambda/client.py).
 *
 * Each parameter class of the source becomes one constructor. Its query key
 * is fixed by the class (`key()`), and its value is serialised by the
 * rendering of its base class (`value()`). A `StreamConfig` collects the
 * pairs in a dictionary, a later `add` of the same key overwriting.
 */
module Filters {
  import opened Wrappers
  import opened Text

  /**
   * The closed family of parameter kinds. Float bounds of the latitude and
   * longitude filters are taken as already rendered text.
   */
  datatype StreamParameter =
    | ContinueFromPositionToken(token: string)
    | FilterMaxAge(maxAge: int)
    | FilterLatitude(lower: string, upper: string)
    | FilterLongitude(lower: string, upper: string)
    | FilterAltitude(lowerAltitude: int, upperAltitude: int)
    | FilterLate(late: bool)
    | FilterIcaoAddress(values: seq<string>)
    | FilterTailNumber(values: seq<string>)
    | FilterCallSign(values: seq<string>)
    | FilterAirline(values: seq<string>)

  /** The query-string key of each kind. */
  function Key(p: StreamParameter): string
  {
    match p
    case ContinueFromPositionToken(_) => "position_token"
    case FilterMaxAge(_) => "max_age"
    case FilterLatitude(_, _) => "latitude_between"
    case FilterLongitude(_, _) => "longitude_between"
    case FilterAltitude(_, _) => "altitude_between"
    case FilterLate(_) => "late_filter"
    case FilterIcaoAddress(_) => "icao_address"
    case FilterTailNumber(_) => "tail_number"
    case FilterCallSign(_) => "callsign"
    case FilterAirline(_) => "airline"
  }

  /** `"lower,upper"`, the rendering shared by both range kinds. */
  function Range(lower: string, upper: string): string
  {
    lower + "," + upper
  }

  /** `json.dumps` of a boolean. */
  function BoolText(b: bool): string
  {
    if b then "true" else "false"
  }

  /** The query-string value of each kind. */
  function Value(p: StreamParameter): string
  {
    match p
    case ContinueFromPositionToken(t) => t
    case FilterMaxAge(a) => IntToString(a)
    case FilterLatitude(lo, hi) => Range(lo, hi)
    case FilterLongitude(lo, hi) => Range(lo, hi)
    case FilterAltitude(lo, hi) => Range(IntToString(lo), IntToString(hi))
    case FilterLate(b) => BoolText(b)
    case FilterIcaoAddress(vs) => Join(vs, ',')
    case FilterTailNumber(vs) => Join(vs, ',')
    case FilterCallSign(vs) => Join(vs, ',')
    case FilterAirline(vs) => Join(vs, ',')
  }

  /** Whether two parameters are of the same kind (the same class in the source). */
  predicate SameKind(p: StreamParameter, q: StreamParameter)
  {
    || (p.ContinueFromPositionToken? && q.ContinueFromPositionToken?)
    || (p.FilterMaxAge? && q.FilterMaxAge?)
    || (p.FilterLatitude? && q.FilterLatitude?)
    || (p.FilterLongitude? && q.FilterLongitude?)
    || (p.FilterAltitude? && q.FilterAltitude?)
    || (p.FilterLate? && q.FilterLate?)
    || (p.FilterIcaoAddress? && q.FilterIcaoAddress?)
    || (p.FilterTailNumber? && q.FilterTailNumber?)
    || (p.FilterCallSign? && q.FilterCallSign?)
    || (p.FilterAirline? && q.FilterAirline?)
  }

  /** Two parameters share a query key exactly when they are of the same kind. */
  lemma KeyIdentifiesKind(p: StreamParameter, q: StreamParameter)
    ensures Key(p) == Key(q) <==> SameKind(p, q)
  {
    var kp, kq := Key(p), Key(q);
    if kp == kq {
      // keys of different kinds differ in length or in an early character
      assert |kp| == |kq| && (|kp| > 2 ==> kp[..3] == kq[..3]);
    }
  }

  /** The parameters a server can read back unambiguously: list items and float bounds hold no comma, lists are not empty. */
  predicate WellFormed(p: StreamParameter)
  {
    match p
    case FilterLatitude(lo, hi) => NoSeparator(lo, ',') && NoSeparator(hi, ',')
    case FilterLongitude(lo, hi) => NoSeparator(lo, ',') && NoSeparator(hi, ',')
    case FilterIcaoAddress(vs) => WellFormedList(vs)
    case FilterTailNumber(vs) => WellFormedList(vs)
    case FilterCallSign(vs) => WellFormedList(vs)
    case FilterAirline(vs) => WellFormedList(vs)
    case _ => true
  }

  predicate WellFormedList(vs: seq<string>)
  {
    |vs| >= 1 && forall i :: 0 <= i < |vs| ==> NoSeparator(vs[i], ',')
  }

  function ParseBool(s: string): Option<bool>
  {
    if s == "true" then Some(true) else if s == "false" then Some(false) else None
  }

  function ParseRange(s: string): Option<(string, string)>
  {
    var parts := Split(s, ',');
    if |parts| == 2 then Some((parts[0], parts[1])) else None
  }

  function ParseIntRange(s: string): Option<(int, int)>
  {
    match ParseRange(s)
    case None => None
    case Some((lo, hi)) =>
      match (ParseInt(lo), ParseInt(hi))
      case (Some(l), Some(h)) => Some((l, h))
      case _ => None
  }

  /** How a query pair is read back into a parameter: the reference reading of the key/value rendering. */
  function Decode(key: string, value: string): Option<StreamParameter>
  {
    match key
    case "position_token" => Some(ContinueFromPositionToken(value))
    case "max_age" =>
      (match ParseInt(value) case None => None case Some(a) => Some(FilterMaxAge(a)))
    case "latitude_between" =>
      (match ParseRange(value) case None => None case Some((lo, hi)) => Some(FilterLatitude(lo, hi)))
    case "longitude_between" =>
      (match ParseRange(value) case None => None case Some((lo, hi)) => Some(FilterLongitude(lo, hi)))
    case "altitude_between" =>
      (match ParseIntRange(value) case None => None case Some((lo, hi)) => Some(FilterAltitude(lo, hi)))
    case "late_filter" =>
      (match ParseBool(value) case None => None case Some(b) => Some(FilterLate(b)))
    case "icao_address" => Some(FilterIcaoAddress(Split(value, ',')))
    case "tail_number" => Some(FilterTailNumber(Split(value, ',')))
    case "callsign" => Some(FilterCallSign(Split(value, ',')))
    case "airline" => Some(FilterAirline(Split(value, ',')))
    case _ => None
  }

  lemma RangeRoundTrip(lo: string, hi: string)
    requires NoSeparator(lo, ',') && NoSeparator(hi, ',')
    ensures ParseRange(Range(lo, hi)) == Some((lo, hi))
  {
    SplitJoin([lo, hi], ',');
    assert Join([lo, hi], ',') == Range(lo, hi) by {
      assert [lo, hi][1..] == [hi];
    }
  }

  lemma IntStringHasNoComma(n: int)
    ensures NoSeparator(IntToString(n), ',')
  {
    var s := IntToString(n);
    if n < 0 {
      assert s[1..] == NatToString(-n);
      forall i | 1 <= i < |s| ensures s[i] != ',' {
        assert s[i] == s[1..][i - 1];
      }
    }
  }

  lemma DecodeAltitude(lo: int, hi: int)
    ensures ParseIntRange(Range(IntToString(lo), IntToString(hi))) == Some((lo, hi))
  {
    IntStringHasNoComma(lo);
    IntStringHasNoComma(hi);
    RangeRoundTrip(IntToString(lo), IntToString(hi));
    ParseIntToString(lo);
    ParseIntToString(hi);
  }

  /** The scalar kinds are read back from their own key and value. */
  lemma DecodeScalar(p: StreamParameter)
    requires p.ContinueFromPositionToken? || p.FilterMaxAge? || p.FilterLate?
    ensures Decode(Key(p), Value(p)) == Some(p)
  {
    if p.FilterMaxAge? {
      ParseIntToString(p.maxAge);
    }
  }

  /** The range kinds are read back from their own key and value. */
  lemma DecodeRange(p: StreamParameter)
    requires p.FilterLatitude? || p.FilterLongitude? || p.FilterAltitude?
    requires WellFormed(p)
    ensures Decode(Key(p), Value(p)) == Some(p)
  {
    if p.FilterAltitude? {
      DecodeAltitude(p.lowerAltitude, p.upperAltitude);
    } else {
      RangeRoundTrip(p.lower, p.upper);
    }
  }

  /** The list kinds are read back from their own key and value. */
  lemma DecodeList(p: StreamParameter)
    requires p.FilterIcaoAddress? || p.FilterTailNumber? || p.FilterCallSign? || p.FilterAirline?
    requires WellFormed(p)
    ensures Decode(Key(p), Value(p)) == Some(p)
  {
    SplitJoin(p.values, ',');
  }

  /** Every well-formed parameter is read back from its own key and value. */
  lemma DecodeKeyValue(p: StreamParameter)
    requires WellFormed(p)
    ensures Decode(Key(p), Value(p)) == Some(p)
  {
    if p.ContinueFromPositionToken? || p.FilterMaxAge? || p.FilterLate? {
      DecodeScalar(p);
    } else if p.FilterLatitude? || p.FilterLongitude? || p.FilterAltitude? {
      DecodeRange(p);
    } else {
      DecodeList(p);
    }
  }

  /** The dictionary that successive `add` calls of `ps`, in order, build from an empty `StreamConfig`. */
  function Configured(ps: seq<StreamParameter>): map<string, string>
    decreases |ps|
  {
    if |ps| == 0 then map[]
    else Configured(ps[..|ps| - 1])[Key(ps[|ps| - 1]) := Value(ps[|ps| - 1])]
  }

  /** The configured keys are exactly the keys of the parameters added. */
  lemma {:induction false} ConfiguredKeys(ps: seq<StreamParameter>)
    ensures forall k :: k in Configured(ps) <==> exists i :: 0 <= i < |ps| && Key(ps[i]) == k
    decreases |ps|
  {
    if |ps| > 0 {
      var init := ps[..|ps| - 1];
      ConfiguredKeys(init);
      forall k | k in Configured(ps) ensures exists i :: 0 <= i < |ps| && Key(ps[i]) == k {
        if k != Key(ps[|ps| - 1]) {
          assert k in Configured(init);
          var i :| 0 <= i < |init| && Key(init[i]) == k;
          assert Key(ps[i]) == k;
        }
      }
      forall k | exists i :: 0 <= i < |ps| && Key(ps[i]) == k ensures k in Configured(ps) {
        var i :| 0 <= i < |ps| && Key(ps[i]) == k;
        if i < |ps| - 1 {
          assert Key(init[i]) == k;
        }
      }
    }
  }

  /** Each key holds the value of the last parameter added with that key. */
  lemma {:induction false} ConfiguredLastWins(ps: seq<StreamParameter>, i: nat)
    requires i < |ps|
    requires forall j :: i < j < |ps| ==> Key(ps[j]) != Key(ps[i])
    ensures Key(ps[i]) in Configured(ps) && Configured(ps)[Key(ps[i])] == Value(ps[i])
    decreases |ps|
  {
    if i < |ps| - 1 {
      var init := ps[..|ps| - 1];
      assert init[i] == ps[i];
      ConfiguredLastWins(init, i);
    }
  }

  /** A second `add` of the same key overwrites the first and leaves every other key as it was. */
  lemma AddOverwrites(ps: seq<StreamParameter>, p: StreamParameter, q: StreamParameter)
    requires Key(p) == Key(q)
    ensures Configured(ps + [p, q]) == Configured(ps + [q])
    ensures forall k :: k != Key(q) && k in Configured(ps) ==> Configured(ps + [q])[k] == Configured(ps)[k]
  {
    assert (ps + [p, q])[..|ps| + 1] == ps + [p];
    assert (ps + [p])[..|ps|] == ps;
    assert (ps + [q])[..|ps|] == ps;
  }

  /** Every entry of a configuration built from well-formed parameters reads back as a parameter with that key. */
  lemma {:induction false} ConfiguredDecodes(ps: seq<StreamParameter>)
    requires forall i :: 0 <= i < |ps| ==> WellFormed(ps[i])
    ensures forall k :: k in Configured(ps) ==>
      Decode(k, Configured(ps)[k]).Some? && Key(Decode(k, Configured(ps)[k]).value) == k
    decreases |ps|
  {
    if |ps| > 0 {
      var last := ps[|ps| - 1];
      ConfiguredDecodes(ps[..|ps| - 1]);
      DecodeKeyValue(last);
    }
  }

  /**
   * `StreamConfig`: the `_parameters` dictionary, with the ghost list of
   * parameters added so far that it is built from.
   */
  class StreamConfig {
    var parameters: map<string, string>
    ghost var added: seq<StreamParameter>

    ghost predicate Valid()
      reads this
    {
      parameters == Configured(added)
    }

    constructor ()
      ensures Valid() && added == [] && parameters == map[]
    {
      parameters := map[];
      added := [];
    }

    /** `add`: stores `Key(p) -> Value(p)`, overwriting an earlier entry with that key. */
    method Add(p: StreamParameter)
      requires Valid()
      modifies this
      ensures Valid() && added == old(added) + [p]
      ensures parameters == old(parameters)[Key(p) := Value(p)]
    {
      parameters := parameters[Key(p) := Value(p)];
      added := added + [p];
      assert added[..|added| - 1] == old(added);
    }

    /** `get`: the dictionary of all parameters, one entry per distinct key added. */
    method Get() returns (m: map<string, string>)
      requires Valid()
      ensures m == parameters
      ensures forall k :: k in m <==> exists i :: 0 <= i < |added| && Key(added[i]) == k
    {
      m := parameters;
      ConfiguredKeys(added);
    }
  }
}
