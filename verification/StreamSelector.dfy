/** SEEDLink stream selectors: the text parser, the printer, and how they relate. */
module StreamSelector {
  import opened Common
  import opened Text
  import opened Words

  datatype Type = All | Data | Event | Calibration | Blockette | Timing | Log

  datatype Fields = Fields(
    network: string, station: string, channel: string, locationCode: string, kind: Type, noLocationCode: bool)

  const DEFAULT := Fields("", "*", "", "", All, false)

  // The words of a selector line and what they mean.

  function KindOf(word: string): Type {
    if word == "D" || word == "d" then Data else All
  }

  /** The parse of a selector as a function of its words alone. */
  function ParseWords(words: seq<string>): Result<Fields> {
    if words == [] then Err(InvalidArgument)
    else if |words[0]| != 2 then Err(InvalidArgument)
    else if |words| == 1 then Err(OutOfRange)
    else
      var f := DEFAULT.(network := ToUpper(words[0]), station := ToUpper(words[1]));
      if |words| == 2 then Ok(f.(channel := "*", locationCode := "??"))
      else if |words| == 3 then Ok(f.(channel := ToUpper(words[2]), locationCode := "??"))
      else if |words| > 4 then
        Ok(f.(channel := ToUpper(words[2]), locationCode := words[3], kind := KindOf(words[|words| - 1])))
      else if |words[3]| > 1 then Ok(f.(channel := ToUpper(words[2]), locationCode := words[3]))
      else Ok(f.(channel := ToUpper(words[2]), kind := KindOf(words[3]), noLocationCode := true))
  }

  // The printed selector.

  function KindLetter(kind: Type): char {
    match kind
    case All => '*'
    case Data => 'D'
    case Event => 'E'
    case Calibration => 'C'
    case Blockette => 'B'
    case Timing => 'T'
    case Log => 'L'
  }

  function LocationChannel(f: Fields): string {
    if f.locationCode == "" && f.channel == "" then ""
    else (if f.locationCode != "" then f.locationCode else if f.noLocationCode then "" else "??")
         + (if f.channel == "" then "*" else f.channel)
  }

  function SelectorText(f: Fields): string {
    if LocationChannel(f) != "" then LocationChannel(f) + "." + [KindLetter(f.kind)]
    else if f.kind == All then ""
    else "*." + [KindLetter(f.kind)]
  }

  class StreamSelector {
    var mNetwork: string
    var mStation: string
    var mChannel: string
    var mLocationCode: string
    var mType: Type
    var mNoLocationCode: bool

    function GetFields(): Fields
      reads this
    {
      Fields(mNetwork, mStation, mChannel, mLocationCode, mType, mNoLocationCode)
    }

    constructor ()
      ensures GetFields() == DEFAULT
    {
      mNetwork, mStation, mChannel, mLocationCode, mType, mNoLocationCode := "", "*", "", "", All, false;
    }

    method SetNetwork(network: string) returns (r: Result<()>)
      modifies this`mNetwork
      ensures r == if |network| == 2 then Ok(()) else Err(InvalidArgument)
      ensures mNetwork == if r.Ok? then ToUpper(network) else old(mNetwork)
    {
      if |network| != 2 {
        return Err(InvalidArgument);
      }
      mNetwork := ToUpper(network);
      return Ok(());
    }

    method SetStation(station: string) returns (r: Result<()>)
      modifies this`mStation
      ensures r == if station != "" then Ok(()) else Err(InvalidArgument)
      ensures mStation == if r.Ok? then ToUpper(station) else old(mStation)
    {
      if station == "" {
        return Err(InvalidArgument);
      }
      mStation := ToUpper(station);
      return Ok(());
    }

    method SetSelector(channel: string, kind: Type)
      modifies this
      ensures GetFields() == old(GetFields()).(
                channel := ToUpper(channel), locationCode := "", noLocationCode := true, kind := kind)
    {
      mChannel, mLocationCode, mNoLocationCode, mType := ToUpper(channel), "", true, kind;
    }

    method SetSelectorWithLocation(channel: string, locationCode: string, kind: Type)
      modifies this
      ensures GetFields() == old(GetFields()).(
                channel := ToUpper(channel), locationCode := locationCode, noLocationCode := false, kind := kind)
    {
      mChannel, mLocationCode, mNoLocationCode, mType := ToUpper(channel), locationCode, false, kind;
    }

    method GetSelector() returns (selector: string)
      ensures selector == SelectorText(GetFields())
      ensures mLocationCode != "" && mChannel != "" ==>
                selector == mLocationCode + mChannel + "." +
                  match mType
                  case All => "*"
                  case Data => "D"
                  case Event => "E"
                  case Calibration => "C"
                  case Blockette => "B"
                  case Timing => "T"
                  case Log => "L"
    {
      selector := "";
      var locationChannel := "";
      if !(mLocationCode == "" && mChannel == "") {
        if mLocationCode == "" {
          locationChannel := "??";
          if mNoLocationCode { locationChannel := ""; }
        } else {
          locationChannel := mLocationCode;
        }
        locationChannel := locationChannel + if mChannel == "" then "*" else mChannel;
      }
      if mType == All {
        if locationChannel == "" { return; }
        selector := locationChannel + ".*";
      } else {
        selector := (if locationChannel == "" then "*." else locationChannel + ".") + [KindLetter(mType)];
      }
    }
  }

  /** `getDataType`: unrecognised letters mean every type. */
  function GetDataType(tokens: seq<string>): (kind: Type)
    requires tokens != []
    ensures kind == Data || kind == All
  {
    KindOf(Trim(tokens[|tokens| - 1]))
  }

  /** A one-character text has no two-character network, so `fromString` never gets past it. */
  lemma SingleCharacterNetwork(s: string)
    requires |s| == 1
    ensures |Trim(Split(s)[0])| != 2
  {
    assert s[1..] == "" && Split(s[1..]) == [""];
    var t := Split(s)[0];
    assert |t| <= 1;
    assert TrimLeft(t) == t || TrimLeft(t) == t[1..];
  }

  /** The tokens of a well-spaced line are its words, and trimming them changes nothing. */
  lemma TokensAreWords(s: string)
    requires WellSpaced(s) && WordsOf(s) != []
    ensures var tokens := Split(Collapse(Trim(s)));
            tokens == WordsOf(s) && forall i :: 0 <= i < |tokens| ==> Trim(tokens[i]) == tokens[i] && tokens[i] != ""
  {
    PreprocessingFindsWords(s);
    WordsAreWords(s);
    forall i | 0 <= i < |WordsOf(s)| ensures Trim(WordsOf(s)[i]) == WordsOf(s)[i] && WordsOf(s)[i] != "" {
      assert WordsOf(s)[i] in WordsOf(s);
      TrimOfWord(WordsOf(s)[i]);
    }
  }

  /** The tokens of an accepted line: a two-letter network and a station. */
  predicate Accepted(tokens: seq<string>) {
    |tokens| >= 2 && |Trim(tokens[0])| == 2 && Trim(tokens[1]) != ""
  }

  /** For a line whose only white space is blanks, or single tabs, the outcome depends on its words alone. */
  method FromString(streamSelector: string) returns (r: Result<Fields>)
    ensures OnlyBlanks(streamSelector) || WellSpaced(streamSelector) ==> r == ParseWords(WordsOf(streamSelector))
    ensures r.Ok? <==> Accepted(Split(Collapse(Trim(streamSelector))))
    ensures r.Ok? ==> |r.value.network| == 2 && r.value.station != "" && (r.value.kind == Data || r.value.kind == All)
  {
    var splitSelector := CollapseInPlace(Trim(streamSelector));
    var thisSelector := Split(splitSelector);
    ghost var words := WordsOf(streamSelector);
    if OnlyBlanks(streamSelector) {
      BlanksAreWellSpaced(streamSelector);
    }
    if WellSpaced(streamSelector) {
      PreprocessingFindsWords(streamSelector);
      if words != [] {
        TokensAreWords(streamSelector);
      }
    }
    if |splitSelector| == 1 {
      SingleCharacterNetwork(splitSelector);
    }
    assert ToUpper("*") == "*";
    var selector := new StreamSelector();
    if splitSelector == "" {
      return Err(InvalidArgument);
    }
    var outcome := selector.SetNetwork(Trim(thisSelector[0]));
    if outcome.Err? {
      return Err(outcome.error);
    }
    if |splitSelector| > 1 {
      if |thisSelector| < 2 {
        return Err(OutOfRange);
      }
      outcome := selector.SetStation(Trim(thisSelector[1]));
      if outcome.Err? {
        return Err(outcome.error);
      }
    }
    var channel, locationCode, dataType := "*", "??", All;
    if |thisSelector| > 2 {
      channel := Trim(thisSelector[2]);
    }
    if |thisSelector| > 4 {
      locationCode := Trim(thisSelector[3]);
      dataType := GetDataType(thisSelector);
      selector.SetSelectorWithLocation(channel, locationCode, dataType);
    } else if |thisSelector| == 4 {
      locationCode := thisSelector[3];
      if |locationCode| > 1 {
        selector.SetSelectorWithLocation(channel, locationCode, dataType);
      } else {
        dataType := GetDataType(thisSelector);
        selector.SetSelector(channel, dataType);
      }
    } else {
      selector.SetSelectorWithLocation(channel, locationCode, dataType);
    }
    return Ok(selector.GetFields());
  }

  // What the parser accepts and what it recovers.

  /** A blank-separated line is accepted exactly when it has two words or more and a two-letter network. */
  lemma AcceptedLines(s: string)
    requires OnlyBlanks(s)
    ensures ParseWords(WordsOf(s)).Ok? <==> |WordsOf(s)| >= 2 && |WordsOf(s)[0]| == 2
  {
  }

  /** The network alone is never accepted, although the station has a default. */
  lemma NetworkAloneIsRejected(network: string)
    requires IsWord(network)
    ensures WordsOf(network) == [network] && ParseWords(WordsOf(network)).Err?
  {
    assert Unwords([network]) == network;
    WordsRoundTrip([network]);
  }

  /** "NET STA" selects all channels at any location. */
  lemma TwoWordLine(network: string, station: string)
    requires IsWord(network) && |network| == 2 && IsWord(station)
    ensures ParseWords(WordsOf(network + " " + station)) ==
            Ok(Fields(ToUpper(network), ToUpper(station), "*", "??", All, false))
  {
    assert Unwords([network, station]) == network + " " + station;
    WordsRoundTrip([network, station]);
  }

  /** "NET STA CHAN" selects the channel at any location. */
  lemma ThreeWordLine(network: string, station: string, channel: string)
    requires IsWord(network) && |network| == 2 && IsWord(station) && IsWord(channel)
    ensures ParseWords(WordsOf(network + " " + station + " " + channel)) ==
            Ok(Fields(ToUpper(network), ToUpper(station), ToUpper(channel), "??", All, false))
  {
    var words := [network, station, channel];
    assert words[1..] == [station, channel] && words[1..][1..] == [channel];
    assert Unwords(words[1..]) == station + " " + channel;
    assert Unwords(words) == network + " " + station + " " + channel;
    WordsRoundTrip(words);
  }

  /** "NET STA CHAN LOC" selects channel and location, which is not put in upper case. */
  lemma FourWordLine(network: string, station: string, channel: string, locationCode: string)
    requires IsWord(network) && |network| == 2 && IsWord(station) && IsWord(channel)
    requires IsWord(locationCode) && |locationCode| > 1
    ensures ParseWords(WordsOf(network + " " + station + " " + channel + " " + locationCode)) ==
            Ok(Fields(ToUpper(network), ToUpper(station), ToUpper(channel), locationCode, All, false))
  {
    var words := [network, station, channel, locationCode];
    assert words[1..] == [station, channel, locationCode] && words[1..][1..] == [channel, locationCode];
    assert words[1..][1..][1..] == [locationCode];
    assert Unwords(words[1..][1..]) == channel + " " + locationCode;
    assert Unwords(words[1..]) == station + " " + channel + " " + locationCode;
    assert Unwords(words) == network + " " + station + " " + channel + " " + locationCode;
    WordsRoundTrip(words);
  }

  /** Writing "NET STA CHAN LOC T" and reading it back recovers the five fields. */
  lemma LineRoundTrip(network: string, station: string, channel: string, locationCode: string, letter: string)
    requires IsWord(network) && |network| == 2 && IsWord(station) && IsWord(channel) && IsWord(locationCode)
    requires letter in {"D", "d", "A", "a"}
    ensures var line := Unwords([network, station, channel, locationCode, letter]);
            && OnlyBlanks(line)
            && ParseWords(WordsOf(line)) ==
               Ok(Fields(ToUpper(network), ToUpper(station), ToUpper(channel), locationCode,
                         if letter == "D" || letter == "d" then Data else All, false))
            && SelectorText(ParseWords(WordsOf(line)).value) ==
               locationCode + ToUpper(channel) + (if letter == "D" || letter == "d" then ".D" else ".*")
  {
    assert |letter| == 1 && letter[0] in {'D', 'd', 'A', 'a'};
    assert IsWord(letter);
    WordsRoundTrip([network, station, channel, locationCode, letter]);
  }

  /** Without a location, "NET STA CHAN T" selects by channel only. */
  lemma ShortLineRoundTrip(network: string, station: string, channel: string, letter: string)
    requires IsWord(network) && |network| == 2 && IsWord(station) && IsWord(channel)
    requires letter in {"D", "d", "A", "a"}
    ensures var line := Unwords([network, station, channel, letter]);
            && OnlyBlanks(line)
            && ParseWords(WordsOf(line)) ==
               Ok(Fields(ToUpper(network), ToUpper(station), ToUpper(channel), "",
                         if letter == "D" || letter == "d" then Data else All, true))
            && SelectorText(ParseWords(WordsOf(line)).value) ==
               ToUpper(channel) + (if letter == "D" || letter == "d" then ".D" else ".*")
  {
    assert |letter| == 1 && letter[0] in {'D', 'd', 'A', 'a'};
    var words := [network, station, channel, letter];
    WordsRoundTrip(words);
    hide WordsOf, Unwords, ToUpper;
    var f := DEFAULT.(network := ToUpper(network), station := ToUpper(station),
                      channel := ToUpper(channel), kind := KindOf(letter), noLocationCode := true);
    assert ParseWords(words) == Ok(f);
    assert |ToUpper(channel)| == |channel|;
    assert LocationChannel(f) == ToUpper(channel);
  }

  /**
   * A tab next to a blank leaves an empty token, so such a line is rejected
   * although it holds two words.
   */
  lemma TabBesideBlankIsRejected(network: string, station: string)
    requires IsWord(network) && IsWord(station)
    ensures var line := network + " " + ("\t" + station);
            && WordsOf(line) == [network, station]
            && !Accepted(Split(Collapse(Trim(line))))
  {
    var line := network + " " + ("\t" + station);
    WordSplits(network);
    WordSplits(station);
    assert "\t" + station == "" + ['\t'] + station;
    SplitConcat("", '\t', station);
    SplitConcat(network, ' ', "\t" + station);
    assert Split(line) == [network] + ([""] + [station]);
    assert [network] + ([""] + [station]) == [network, "", station];
    NonEmptyConcat([network], [""] + [station]);
    NonEmptyConcat([""], [station]);
    assert line[0] == network[0] && network[0] in network;
    assert line[|line| - 1] == station[|station| - 1] && station[|station| - 1] in station;
    assert Trim(line) == line;
    forall i | 0 <= i < |line| ensures line[i] == ' ' <==> i == |network| {
      if i < |network| {
        assert line[i] == network[i] && network[i] in network;
      } else if i > |network| + 1 {
        assert line[i] == station[i - 2 - |network|] && line[i] in station;
      }
    }
    NothingToCollapse(line);
  }

  lemma WordSplits(word: string)
    requires IsWord(word)
    ensures Split(word) == [word] && NonEmpty([word]) == [word]
  {
    forall c | c in word ensures !IsSeparator(c) {
      assert !IsSpace(c);
    }
    SplitWord(word);
    assert [word][1..] == [];
  }

  lemma NothingToCollapse(s: string)
    requires forall i :: 0 < i < |s| ==> !(s[i - 1] == ' ' && s[i] == ' ')
    ensures Collapse(s) == s
  {
  }

  // What the printed selector determines.

  /** With two-character locations and a channel, the text determines location, channel and type. */
  lemma SelectorTextInjective(f: Fields, g: Fields)
    requires |f.locationCode| == 2 && |g.locationCode| == 2 && f.channel != "" && g.channel != ""
    ensures SelectorText(f) == SelectorText(g) <==>
            f.locationCode == g.locationCode && f.channel == g.channel && f.kind == g.kind
  {
    SelectorTextDetermines(f, g);
    hide SelectorText, KindLetter;
    var a, b := LocationChannel(f), LocationChannel(g);
    assert a[..2] == f.locationCode && a[2..] == f.channel && b[..2] == g.locationCode && b[2..] == g.channel;
    assert |a| > 2 && a in {a, b};
  }

  /**
   * In general the text determines the type and the concatenation of location
   * and channel, except that nothing and "*" print alike for any type but All.
   */
  lemma SelectorTextDetermines(f: Fields, g: Fields)
    ensures SelectorText(f) == SelectorText(g) <==>
            f.kind == g.kind
            && (LocationChannel(f) == LocationChannel(g)
                || (f.kind != All && {LocationChannel(f), LocationChannel(g)} == {"", "*"}))
  {
    KindLetterInjective(f.kind, g.kind);
    var a := if LocationChannel(f) == "" then "*" else LocationChannel(f);
    var b := if LocationChannel(g) == "" then "*" else LocationChannel(g);
    var s, t := a + "." + [KindLetter(f.kind)], b + "." + [KindLetter(g.kind)];
    assert s[..|s| - 2] == a && t[..|t| - 2] == b;
    assert s[|s| - 1] == KindLetter(f.kind) && t[|t| - 1] == KindLetter(g.kind);
    assert SelectorText(f) == if LocationChannel(f) == "" && f.kind == All then "" else s;
    assert SelectorText(g) == if LocationChannel(g) == "" && g.kind == All then "" else t;
  }

  lemma KindLetterInjective(a: Type, b: Type)
    ensures KindLetter(a) == KindLetter(b) <==> a == b
  {
  }

  /** A location written into the channel prints like the same location given separately. */
  lemma LocationCanHideInChannel(location: string, channel: string, kind: Type)
    requires location != "" && channel != ""
    ensures SelectorText(DEFAULT.(channel := location + channel, kind := kind, noLocationCode := true)) ==
            SelectorText(DEFAULT.(channel := channel, locationCode := location, kind := kind))
  {
    hide KindLetter;
    assert LocationChannel(DEFAULT.(channel := location + channel, kind := kind, noLocationCode := true))
        == location + channel;
    assert LocationChannel(DEFAULT.(channel := channel, locationCode := location, kind := kind)) == location + channel;
  }
}
