/**
 * Stream identifiers: normalised fields, the cached dotted name, and the two
 * other encodings used as keys (DataLink stream name and metrics key).
 */
module StreamIdentifier {
  import opened Common
  import opened Text

  datatype Fields = Fields(
    network: string, station: string, channel: string, locationCode: string, hasLocationCode: bool)

  const EMPTY := Fields("", "", "", "", false)

  /** Drop every blank, keep the order of the rest. */
  function RemoveBlanks(s: string): (r: string)
    ensures ' ' !in r
    ensures forall c :: c in r <==> c in s && c != ' '
  {
    if s == "" then ""
    else if s[0] == ' ' then RemoveBlanks(s[1..])
    else [s[0]] + RemoveBlanks(s[1..])
  }

  function ConvertString(s: string): string {
    ToUpper(RemoveBlanks(s))
  }

  /** Converting what is already converted changes nothing. */
  lemma ConvertIsIdempotent(s: string)
    ensures ConvertString(ConvertString(s)) == ConvertString(s)
    ensures NoLower(ConvertString(s)) && ' ' !in ConvertString(s)
  {
    var t := ConvertString(s);
    ToUpperIdempotent(RemoveBlanks(s));
    forall i | 0 <= i < |t| ensures t[i] != ' ' {
      assert RemoveBlanks(s)[i] in RemoveBlanks(s);
    }
    NothingToRemove(t);
    ToUpperIdempotent(t);
  }

  /** Converting acts character by character: a blank vanishes, any other character is put in upper case. */
  lemma {:induction false} ConvertConcat(s: string, t: string)
    ensures ConvertString(s + t) == ConvertString(s) + ConvertString(t)
  {
    RemoveConcat(s, t);
  }

  lemma ConvertCharacter(c: char)
    ensures ConvertString([c]) == if c == ' ' then "" else [ToUpperChar(c)]
  {
    assert [c][1..] == "";
    assert RemoveBlanks([c]) == if c == ' ' then "" else [c];
  }

  lemma {:induction false} RemoveConcat(s: string, t: string)
    ensures RemoveBlanks(s + t) == RemoveBlanks(s) + RemoveBlanks(t)
  {
    if s == "" {
      assert s + t == t;
    } else {
      var rest := s[1..];
      assert (s + t)[0] == s[0] && (s + t)[1..] == rest + t;
      RemoveConcat(rest, t);
      if s[0] != ' ' {
        assert [s[0]] + (RemoveBlanks(rest) + RemoveBlanks(t)) == [s[0]] + RemoveBlanks(rest) + RemoveBlanks(t);
      }
    }
  }

  /** What is already normalised is kept as it is. */
  lemma ConvertKeepsNormalised(s: string)
    requires NoLower(s) && ' ' !in s
    ensures ConvertString(s) == s
  {
    NothingToRemove(s);
    ToUpperIdempotent(s);
  }

  lemma NothingToRemove(s: string)
    requires ' ' !in s
    ensures RemoveBlanks(s) == s
  {
    if s != "" {
      assert s[0] in s && s == [s[0]] + s[1..];
    }
  }

  predicate IsBlank(s: string) {
    forall c :: c in s ==> IsSpace(c)
  }

  predicate Complete(f: Fields) {
    f.network != "" && f.station != "" && f.channel != "" && f.hasLocationCode
  }

  /** The dotted name NET.STA.CHAN[.LOC] */
  function DottedName(f: Fields): string {
    if !Complete(f) then ""
    else if f.locationCode == "" then f.network + "." + f.station + "." + f.channel
    else f.network + "." + f.station + "." + f.channel + "." + f.locationCode
  }

  /** `toDataLinkIdentifier` for a complete identifier. */
  function DataLinkName(f: Fields): string {
    f.network + "_" + f.station + "_" + f.locationCode + "_" + f.channel + "/MSEED"
  }

  /** The key under which `StreamMetrics` publishes. */
  function MetricsKey(f: Fields): string {
    ToLower(f.network + "_" + f.station + "_" + f.channel + if f.locationCode == "" then "" else "_" + f.locationCode)
  }

  /** The reason a getter or a name function throws. */
  function NameOf(f: Fields): Result<string> {
    if Complete(f) then Ok(DottedName(f)) else Err(RuntimeError)
  }

  class StreamIdentifier {
    var mNetwork: string
    var mStation: string
    var mChannel: string
    var mLocationCode: string
    var mString: string
    var mHasLocationCode: bool

    function GetFields(): Fields
      reads this
    {
      Fields(mNetwork, mStation, mChannel, mLocationCode, mHasLocationCode)
    }

    /** The cache is what the fields spell, and the fields are normalised. */
    ghost predicate Valid()
      reads this
    {
      mString == DottedName(GetFields()) && Normalised(GetFields())
    }

    constructor ()
      ensures Valid() && GetFields() == EMPTY
    {
      mNetwork, mStation, mChannel, mLocationCode, mString, mHasLocationCode := "", "", "", "", "", false;
    }

    method SetString()
      modifies this`mString
      ensures mString == DottedName(GetFields())
    {
      mString := "";
      if mNetwork != "" && mStation != "" && mChannel != "" && mHasLocationCode {
        mString := mNetwork + "." + mStation + "." + mChannel;
        if mLocationCode != "" {
          mString := mString + "." + mLocationCode;
        }
      }
    }

    method SetNetwork(network: string) returns (r: Result<()>)
      requires Valid()
      modifies this
      ensures Valid()
      ensures r.Ok? <==> !IsBlank(ConvertString(network))
      ensures GetFields() == if r.Ok? then old(GetFields()).(network := ConvertString(network)) else old(GetFields())
    {
      ConvertIsIdempotent(network);
      var s := ConvertString(network);
      if IsBlank(s) {
        return Err(InvalidArgument);
      }
      mNetwork := s;
      SetString();
      return Ok(());
    }

    method SetStation(station: string) returns (r: Result<()>)
      requires Valid()
      modifies this
      ensures Valid()
      ensures r.Ok? <==> !IsBlank(ConvertString(station))
      ensures GetFields() == if r.Ok? then old(GetFields()).(station := ConvertString(station)) else old(GetFields())
    {
      ConvertIsIdempotent(station);
      var s := ConvertString(station);
      if IsBlank(s) {
        return Err(InvalidArgument);
      }
      mStation := s;
      SetString();
      return Ok(());
    }

    method SetChannel(channel: string) returns (r: Result<()>)
      requires Valid()
      modifies this
      ensures Valid()
      ensures r.Ok? <==> !IsBlank(ConvertString(channel))
      ensures GetFields() == if r.Ok? then old(GetFields()).(channel := ConvertString(channel)) else old(GetFields())
    {
      ConvertIsIdempotent(channel);
      var s := ConvertString(channel);
      if IsBlank(s) {
        return Err(InvalidArgument);
      }
      mChannel := s;
      SetString();
      return Ok(());
    }

    method SetLocationCode(locationCode: string)
      requires Valid()
      modifies this
      ensures Valid()
      ensures GetFields() == old(GetFields()).(
                locationCode := if IsBlank(locationCode) then "" else ConvertString(locationCode),
                hasLocationCode := true)
    {
      ConvertIsIdempotent(locationCode);
      if IsBlank(locationCode) {
        mLocationCode := "";
      } else {
        mLocationCode := ConvertString(locationCode);
      }
      mHasLocationCode := true;
      SetString();
    }

    /** Clearing forgets the four fields but not that a location code was once given. */
    method Clear()
      modifies this
      ensures Valid()
      ensures GetFields() == EMPTY.(hasLocationCode := old(mHasLocationCode))
    {
      mNetwork, mStation, mChannel, mLocationCode := "", "", "", "";
      SetString();
    }

    method GetStringReference() returns (r: Result<string>)
      requires Valid()
      ensures r == NameOf(GetFields())
      ensures r.Ok? <==> mNetwork != "" && mStation != "" && mChannel != "" && mHasLocationCode
      ensures r.Ok? && mLocationCode == "" ==> r.value == mNetwork + "." + mStation + "." + mChannel
      ensures r.Ok? && mLocationCode != "" ==>
                r.value == mNetwork + "." + mStation + "." + mChannel + "." + mLocationCode
    {
      if mString == "" {
        if mNetwork == "" || mStation == "" || mChannel == "" || !mHasLocationCode {
          return Err(RuntimeError);
        }
      }
      return Ok(mString);
    }
  }

  // Keys.

  ghost predicate Normalised(f: Fields) {
    && NoLower(f.network) && NoLower(f.station) && NoLower(f.channel) && NoLower(f.locationCode)
    && ' ' !in f.network && ' ' !in f.station && ' ' !in f.channel && ' ' !in f.locationCode
  }

  /** No field contains the separator. */
  predicate Free(f: Fields, separator: char) {
    separator !in f.network && separator !in f.station && separator !in f.channel && separator !in f.locationCode
  }

  /** Three fields joined by a separator, with an optional fourth. */
  function Joined(f: Fields, separator: char): string {
    f.network + [separator] + (f.station + [separator] +
      if f.locationCode == "" then f.channel else f.channel + [separator] + f.locationCode)
  }

  lemma JoinedInjective(f: Fields, g: Fields, separator: char)
    requires Free(f, separator) && Free(g, separator)
    requires f.hasLocationCode == g.hasLocationCode
    requires Joined(f, separator) == Joined(g, separator)
    ensures f == g
  {
    var fTail := if f.locationCode == "" then f.channel else f.channel + [separator] + f.locationCode;
    var gTail := if g.locationCode == "" then g.channel else g.channel + [separator] + g.locationCode;
    SplitAtSeparator(f.network, g.network, separator, f.station + [separator] + fTail, g.station + [separator] + gTail);
    SplitAtSeparator(f.station, g.station, separator, fTail, gTail);
    if f.locationCode != "" {
      assert fTail[|f.channel|] == separator;
    }
    if g.locationCode != "" {
      assert gTail[|g.channel|] == separator;
    }
    assert f.locationCode == "" <==> g.locationCode == "";
    if f.locationCode != "" {
      SplitAtSeparator(f.channel, g.channel, separator, f.locationCode, g.locationCode);
    }
  }

  lemma DottedNameInjective(f: Fields, g: Fields)
    requires Complete(f) && Complete(g) && Free(f, '.') && Free(g, '.')
    requires DottedName(f) == DottedName(g)
    ensures f == g
  {
    assert DottedName(f) == Joined(f, '.') && DottedName(g) == Joined(g, '.');
    JoinedInjective(f, g, '.');
  }

  lemma MetricsKeyInjective(f: Fields, g: Fields)
    requires Normalised(f) && Normalised(g) && Free(f, '_') && Free(g, '_')
    requires f.hasLocationCode == g.hasLocationCode
    requires MetricsKey(f) == MetricsKey(g)
    ensures f == g
  {
    var a := f.network + "_" + f.station + "_" + f.channel + if f.locationCode == "" then "" else "_" + f.locationCode;
    var b := g.network + "_" + g.station + "_" + g.channel + if g.locationCode == "" then "" else "_" + g.locationCode;
    assert a == Joined(f, '_') && b == Joined(g, '_');
    NoLowerJoined(f);
    NoLowerJoined(g);
    ToLowerInjective(a, b);
    JoinedInjective(f, g, '_');
  }

  lemma NoLowerJoined(f: Fields)
    requires Normalised(f)
    ensures NoLower(Joined(f, '_'))
  {
  }

  lemma DataLinkNameInjective(f: Fields, g: Fields)
    requires Free(f, '_') && Free(g, '_') && f.hasLocationCode == g.hasLocationCode
    requires DataLinkName(f) == DataLinkName(g)
    ensures f == g
  {
    var f2, g2 := f.locationCode + "_" + (f.channel + "/MSEED"), g.locationCode + "_" + (g.channel + "/MSEED");
    var f1, g1 := f.station + "_" + f2, g.station + "_" + g2;
    assert DataLinkName(f) == f.network + "_" + f1 && DataLinkName(g) == g.network + "_" + g1;
    SplitAtSeparator(f.network, g.network, '_', f1, g1);
    SplitAtSeparator(f.station, g.station, '_', f2, g2);
    SplitAtSeparator(f.locationCode, g.locationCode, '_', f.channel + "/MSEED", g.channel + "/MSEED");
    var x, y := f.channel + "/MSEED", g.channel + "/MSEED";
    assert f.channel == x[..|x| - 6] && g.channel == y[..|y| - 6];
  }

  /**
   * The dotted name, the DataLink stream name and the metrics key tell the same
   * identifiers apart: they are equal together or not at all, and only for equal
   * identifiers.
   */
  lemma KeysAgree(f: Fields, g: Fields)
    requires Normalised(f) && Normalised(g) && Complete(f) && Complete(g)
    requires Free(f, '.') && Free(g, '.') && Free(f, '_') && Free(g, '_')
    ensures DottedName(f) == DottedName(g) <==> f == g
    ensures DataLinkName(f) == DataLinkName(g) <==> f == g
    ensures MetricsKey(f) == MetricsKey(g) <==> f == g
  {
    if DottedName(f) == DottedName(g) { DottedNameInjective(f, g); }
    if DataLinkName(f) == DataLinkName(g) { DataLinkNameInjective(f, g); }
    if MetricsKey(f) == MetricsKey(g) { MetricsKeyInjective(f, g); }
  }

  /** With an underscore in a field, two streams with different names share a metrics key. */
  lemma UnderscoreCollides()
    ensures var f := Fields("UU", "A_B", "HHZ", "", true);
            var g := Fields("UU", "A", "B_HHZ", "", true);
            Normalised(f) && Normalised(g) && Complete(f) && Complete(g)
            && DottedName(f) != DottedName(g) && MetricsKey(f) == MetricsKey(g)
  {
    var f := Fields("UU", "A_B", "HHZ", "", true);
    var g := Fields("UU", "A", "B_HHZ", "", true);
    assert "UU" + "_" + "A_B" + "_" + "HHZ" + "" == "UU" + "_" + "A" + "_" + "B_HHZ" + "";
    assert DottedName(f) == "UU.A_B.HHZ";
    assert DottedName(g) == "UU.A.B_HHZ";
    assert DottedName(f)[4] != DottedName(g)[4];
  }

  /** With a dot in a field, two different identifiers share the dotted name. */
  lemma DotCollides()
    ensures var f := Fields("UU", "A.B", "HHZ", "", true);
            var g := Fields("UU", "A", "B.HHZ", "", true);
            Normalised(f) && Normalised(g) && f != g && DottedName(f) == DottedName(g)
            && DataLinkName(f) != DataLinkName(g)
  {
    var f := Fields("UU", "A.B", "HHZ", "", true);
    var g := Fields("UU", "A", "B.HHZ", "", true);
    assert "UU" + "." + "A.B" + "." + "HHZ" == "UU" + "." + "A" + "." + "B.HHZ";
    assert DataLinkName(f) == "UU_A.B__HHZ/MSEED";
    assert DataLinkName(g) == "UU_A__B.HHZ/MSEED";
    assert DataLinkName(f)[4] != DataLinkName(g)[4];
  }
}
